/** One Caddy fragment per app. */
module Gateway {
  import opened Wrappers
  import opened Specs
  import opened Paths
  import opened Decimals
  import UnitText
  import opened Render
  import opened Host
  import opened Managed
  import opened Apply

  function RenderFragment(route: Route): string {
    MANAGED_MARKER + "\n" + route.domain + " {\n\treverse_proxy localhost:" + Decimal(route.port as int) + "\n}\n"
  }

  lemma FragmentIsMarked(route: Route)
    ensures Marked(RenderFragment(route))
  {
    var tail := "\n" + route.domain + " {\n\treverse_proxy localhost:" + Decimal(route.port as int) + "\n}\n";
    assert RenderFragment(route) == MANAGED_MARKER + tail;
  }

  // ---- reading it back ---------------------------------------------------------------------

  /** What a fragment serves. */
  datatype Site = Site(address: string, upstreamPort: nat)

  const PROXY: string := "\treverse_proxy localhost:"

  /** A site block opens with its address and a brace. */
  function ReadOpening(line: string): Option<string> {
    if |line| >= 2 && line[|line| - 2..] == " {" then Some(line[..|line| - 2]) else None
  }

  /** The one directive of the block: a proxy to a port of this machine. */
  function ReadProxy(line: string): Option<nat> {
    if PROXY <= line then ReadDecimal(line[|PROXY|..]) else None
  }

  /** A comment, and one site block around one directive. */
  function ReadFragment(text: string): Option<Site> {
    var lines := UnitText.PhysicalLines(text, "");
    if |lines| != 4 || !("#" <= lines[0]) || lines[3] != "}" then None
    else
      var address, port := ReadOpening(lines[1]), ReadProxy(lines[2]);
      if address.Some? && port.Some? then Some(Site(address.value, port.value)) else None
  }

  lemma FirstLine(line: string, rest: string)
    requires SingleLine(line)
    ensures UnitText.PhysicalLines(line + "\n" + rest, "") == [line] + UnitText.PhysicalLines(rest, "")
  {
    UnitText.PhysicalLine(line, rest, "");
    assert "" + line == line;
  }

  lemma FourLines(a: string, b: string, c: string, d: string)
    requires SingleLine(a) && SingleLine(b) && SingleLine(c) && SingleLine(d)
    ensures UnitText.PhysicalLines(a + "\n" + (b + "\n" + (c + "\n" + (d + "\n" + ""))), "") == [a, b, c, d]
  {
    hide SingleLine;
    FirstLine(a, b + "\n" + (c + "\n" + (d + "\n" + "")));
    FirstLine(b, c + "\n" + (d + "\n" + ""));
    FirstLine(c, d + "\n" + "");
    FirstLine(d, "");
    assert UnitText.PhysicalLines("", "") == [];
  }

  lemma FragmentIsFourLines(a: string, domain: string, port: string)
    ensures a + "\n" + domain + " {\n\treverse_proxy localhost:" + port + "\n}\n"
            == a + "\n" + ((domain + " {") + "\n" + ((PROXY + port) + "\n" + ("}" + "\n" + "")))
  {
    assert " {\n\treverse_proxy localhost:" == " {" + "\n" + PROXY;
    assert "\n}\n" == "\n" + ("}" + "\n" + "");
    Regroup(a + "\n", domain, " {", "\n", PROXY, port, "\n", "}" + "\n" + "");
  }

  lemma Regroup(a: string, b: string, c: string, d: string, e: string, f: string, g: string, h: string)
    ensures a + b + (c + d + e) + f + (g + h) == a + ((b + c) + d + ((e + f) + (g + h)))
  {
  }

  lemma SiteReads(marker: string, domain: string, port: string, text: string)
    requires UnitText.PhysicalLines(text, "") == [marker, domain + " {", PROXY + port, "}"] && "#" <= marker
    ensures ReadFragment(text) ==
              if ReadDecimal(port).Some? then Some(Site(domain, ReadDecimal(port).value)) else None
  {
    hide ReadDecimal;
    hide UnitText.PhysicalLines;
    assert (domain + " {")[|domain|..] == " {" && (domain + " {")[..|domain|] == domain;
    assert (PROXY + port)[|PROXY|..] == port;
  }

  lemma MarkerIsLine()
    ensures SingleLine(MANAGED_MARKER)
  {
  }

  lemma ProxyIsLine()
    ensures SingleLine(" {") && SingleLine(PROXY) && SingleLine("}")
  {
  }

  lemma Joined(a: string, b: string)
    requires SingleLine(a) && SingleLine(b)
    ensures SingleLine(a + b)
  {
  }

  lemma DigitsAreLine(s: string)
    requires forall i | 0 <= i < |s| :: IsDigit(s[i])
    ensures SingleLine(s)
  {
  }

  /** The fragment of a route says exactly its domain and its port. */
  lemma FragmentRoundTrip(route: Route)
    requires SingleLine(route.domain)
    ensures ReadFragment(RenderFragment(route)) == Some(Site(route.domain, route.port as nat))
  {
    hide ReadFragment;
    hide SingleLine;
    hide UnitText.PhysicalLines;
    hide Decimal;
    hide ReadDecimal;
    var port := Decimal(route.port as int);
    DecimalRoundTrip(route.port as int);
    FragmentIsFourLines(MANAGED_MARKER, route.domain, port);
    MarkerIsLine();
    ProxyIsLine();
    DigitsAreLine(port);
    Joined(route.domain, " {");
    Joined(PROXY, port);
    FourLines(MANAGED_MARKER, route.domain + " {", PROXY + port, "}");
    assert "#" <= MANAGED_MARKER;
    SiteReads(MANAGED_MARKER, route.domain, port, RenderFragment(route));
  }

  /** So byte-identical fragments are of the same route. */
  lemma EqualFragmentEqualRoute(a: Route, b: Route)
    requires SingleLine(a.domain) && SingleLine(b.domain) && RenderFragment(a) == RenderFragment(b)
    ensures a == b
  {
    FragmentRoundTrip(a);
    FragmentRoundTrip(b);
  }

  // ---- agreement ---------------------------------------------------------------------------

  /**
   * The fragment file, and separately what Caddy is serving, are what the route renders; without one,
   * absent.
   */
  ghost predicate RouteAgrees(m: map<File, string>, slug: string, route: Option<Route>) {
    Lookup(m, Fragment(slug)) == if route.Some? then Some(RenderFragment(route.value)) else None
  }

  ghost predicate ProxyAgrees(proxied: map<string, string>, slug: string, route: Option<Route>) {
    Lookup(proxied, slug) == if route.Some? then Some(RenderFragment(route.value)) else None
  }

  /** Caddy serves this fragment as it was, or as its file now says. */
  ghost predicate ProxyLeft(slug: string, proxied0: map<string, string>, files1: map<File, string>,
      proxied1: map<string, string>) {
    Lookup(proxied1, slug) == Lookup(proxied0, slug) || Lookup(proxied1, slug) == Lookup(files1, Fragment(slug))
  }

  /** No one else wrote the app's fragment. */
  ghost predicate OwnFragment(files: map<File, string>, slug: string) {
    Fragment(slug) in files ==> Marked(files[Fragment(slug)])
  }

  /** Write the fragment and reload Caddy. */
  method ApplyRoute(h: Host, slug: string, route: Route) returns (r: Io<()>)
    requires h.Valid()
    modifies h`files, h`dirs, h`proxied
    ensures h.Valid()
    ensures Guarded(old(h.files), h.files, RouteOf(slug))
    ensures h.files == old(h.files) || h.files == old(h.files)[Fragment(slug) := RenderFragment(route)]
    ensures forall s :: ProxyLeft(s, old(h.proxied), h.files, h.proxied)
    ensures r.Ok? ==> RouteAgrees(h.files, slug, Some(route)) && ProxyAgrees(h.proxied, slug, Some(route))
    // Read back, what Caddy serves is this domain in front of this port.
    ensures r.Ok? && SingleLine(route.domain) ==>
              slug in h.proxied && ReadFragment(h.proxied[slug]) == Some(Site(route.domain, route.port as nat))
    ensures h.calm && OwnFragment(old(h.files), slug) ==> r.Ok?
    ensures h.calm ==> !r.Crash?
  {
    hide RenderFragment;
    hide ReadFragment;
    var _ :- EnsureOwned(h, Fragment(slug));
    var _ :- h.CreateDirAll(Caddy);
    FragmentIsMarked(route);
    GuardedWrite(h.files, Fragment(slug), RenderFragment(route), RouteOf(slug));
    var _ :- h.WriteFile(Fragment(slug), RenderFragment(route));
    r := h.ReloadCaddy();
    if SingleLine(route.domain) {
      FragmentRoundTrip(route);
    }
  }

  /**
   * Delete the fragment and reload Caddy. With no file there is no reload, so that is exactly when
   * success can leave Caddy serving a fragment that is gone.
   */
  method RemoveRoute(h: Host, slug: string) returns (r: Io<()>)
    requires h.Valid()
    modifies h`files, h`proxied
    ensures h.Valid()
    ensures Guarded(old(h.files), h.files, RouteOf(slug))
    ensures h.files == old(h.files) || h.files == old(h.files) - {Fragment(slug)}
    ensures forall s :: ProxyLeft(s, old(h.proxied), h.files, h.proxied)
    ensures r.Ok? ==> RouteAgrees(h.files, slug, None)
    ensures r.Ok? ==> Lookup(h.proxied, slug) == if Fragment(slug) in old(h.files) then None
              else Lookup(old(h.proxied), slug)
    ensures h.calm && OwnFragment(old(h.files), slug) ==> r.Ok?
    ensures h.calm ==> !r.Crash?
  {
    var owned :- EnsureOwned(h, Fragment(slug));
    if !owned {
      return Ok(());
    }
    GuardedRemove(h.files, Fragment(slug), RouteOf(slug));
    var _ :- h.RemoveFile(Fragment(slug));
    r := h.ReloadCaddy();
  }
}
