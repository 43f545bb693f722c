/** The ownership guard, and what it guarantees over any number of file changes. */
module Managed {
  import opened Wrappers
  import opened Paths
  import opened Host
  import opened Render

  /** The files an operation may reach. */
  datatype Reach = Units(slug: string) | RouteOf(slug: string) | Apps(slugs: set<string>)

  ghost predicate Covers(reach: Reach, f: File) {
    match reach
    case Units(slug) => UnitTouches(slug, f)
    case RouteOf(slug) => f == Fragment(slug)
    case Apps(slugs) => exists slug | slug in slugs :: Touches(slug, f)
  }

  /**
   * Files out of reach, and files without the marker, are still there and byte-identical;
   * every file that is new or different is within reach and carries the marker.
   */
  ghost predicate Guarded(before: map<File, string>, after: map<File, string>, reach: Reach) {
    && (forall f | f in before && !(Covers(reach, f) && Marked(before[f])) :: f in after && after[f] == before[f])
    && (forall f | f in after && !(f in before && before[f] == after[f]) :: Covers(reach, f) && Marked(after[f]))
  }

  lemma GuardedSame(files: map<File, string>, reach: Reach)
    ensures Guarded(files, files, reach)
  {
  }

  lemma GuardedChain(a: map<File, string>, b: map<File, string>, c: map<File, string>, reach: Reach)
    requires Guarded(a, b, reach) && Guarded(b, c, reach)
    ensures Guarded(a, c, reach)
  {
  }

  lemma GuardedWrite(files: map<File, string>, f: File, text: string, reach: Reach)
    requires Covers(reach, f) && Marked(text) && (f in files ==> Marked(files[f]))
    ensures Guarded(files, files[f := text], reach)
  {
  }

  lemma GuardedRemove(files: map<File, string>, f: File, reach: Reach)
    requires Covers(reach, f) && (f in files ==> Marked(files[f]))
    ensures Guarded(files, files - {f}, reach)
  {
  }

  lemma GuardedWiden(a: map<File, string>, b: map<File, string>, small: Reach, large: Reach)
    requires Guarded(a, b, small)
    requires forall f | Covers(small, f) :: Covers(large, f)
    ensures Guarded(a, b, large)
  {
  }

  /** True for a file that carries the marker, false for an absent one, an error for anything else. */
  method EnsureOwned(h: Host, f: File) returns (r: Io<bool>)
    ensures r.Ok? ==> r.value == (f in h.files)
    ensures r.Ok? && f in h.files ==> Marked(h.files[f])
    ensures h.calm && (f in h.files ==> Marked(h.files[f])) ==> r.Ok?
    ensures h.calm ==> !r.Crash?
  {
    var present :- h.Exists(f);
    if !present {
      return Ok(false);
    }
    var existing :- h.ReadFile(f);
    if !(MANAGED_MARKER <= existing) {
      return Err;
    }
    return Ok(true);
  }
}
