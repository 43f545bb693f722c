/**
 * Where kuadrat's files live. A file is a directory, a stem and an extension, which is how the
 * program takes directory entries apart; SplitName below shows that this is a faithful view of
 * file names. The hard part is which files two apps can share.
 */
module Paths {
  import opened Wrappers
  import opened Slugs

  /** The three directories kuadrat writes to; every constructor of `Paths` keeps them apart. */
  datatype Dir = Quadlet | Systemd | Caddy

  datatype File = File(dir: Dir, stem: string, ext: Option<string>)

  const UNIT_PREFIX: string := "kuadrat-"
  const TASK_INFIX: string := "-task-"

  // ---- names -------------------------------------------------------------------------------

  function UnitName(slug: string): string {
    UNIT_PREFIX + slug
  }

  function TaskStemPrefix(slug: string): string {
    UNIT_PREFIX + slug + TASK_INFIX
  }

  function TaskUnitName(slug: string, taskSlug: string): string {
    TaskStemPrefix(slug) + taskSlug
  }

  function UnitFile(slug: string): File {
    File(Quadlet, UnitName(slug), Some("container"))
  }

  function TaskContainer(stem: string): File {
    File(Quadlet, stem, Some("container"))
  }

  function TaskTimer(stem: string): File {
    File(Systemd, stem, Some("timer"))
  }

  function Fragment(slug: string): File {
    File(Caddy, slug, Some("caddy"))
  }

  // ---- file names as directory entries -----------------------------------------------------

  /** Index of the last dot, or -1. */
  function LastDot(name: string): (i: int)
    ensures -1 <= i < |name|
    ensures i >= 0 ==> name[i] == '.'
    ensures forall k | i < k < |name| :: name[k] != '.'
  {
    if name == "" then -1
    else if name[|name| - 1] == '.' then |name| - 1
    else LastDot(name[..|name| - 1])
  }

  /** `file_stem` and `extension`: split at the last dot, unless that dot leads the name. */
  function SplitName(name: string): (string, Option<string>) {
    var dot := LastDot(name);
    if dot <= 0 then (name, None) else (name[..dot], Some(name[dot + 1..]))
  }

  function FileName(stem: string, ext: string): string {
    stem + "." + ext
  }

  /** The stem and extension a name was built from are what the directory scan reads back. */
  lemma SplitNameInverts(stem: string, ext: string)
    requires stem != "" && '.' !in ext
    ensures SplitName(FileName(stem, ext)) == (stem, Some(ext))
  {
    var name := FileName(stem, ext);
    var dot := LastDot(name);
    assert name[|stem|] == '.';
    assert forall k | |stem| < k < |name| :: name[k] == ext[k - |stem| - 1];
    assert name[..|stem|] == stem && name[|stem| + 1..] == ext;
  }

  /** The scan's prefix test on the stem is a test on the whole name: the prefix has no dot. */
  lemma PrefixTestOnStem(slug: string, name: string)
    requires WellFormed(slug)
    ensures TaskStemPrefix(slug) <= SplitName(name).0 <==> TaskStemPrefix(slug) <= name
  {
    var p := TaskStemPrefix(slug);
    var dot := LastDot(name);
    if p <= name && 0 < dot < |p| {
      assert name[dot] == p[dot];
      PrefixHasNoDot(slug, dot);
    }
    if p <= name && dot > 0 {
      assert name[..dot][..|p|] == name[..|p|];
    }
  }

  lemma PrefixHasNoDot(slug: string, i: nat)
    requires WellFormed(slug) && i < |TaskStemPrefix(slug)|
    ensures TaskStemPrefix(slug)[i] != '.'
  {
    if |UNIT_PREFIX| <= i < |UNIT_PREFIX| + |slug| {
      assert TaskStemPrefix(slug)[i] == slug[i - |UNIT_PREFIX|];
    }
  }

  // ---- what one app can touch --------------------------------------------------------------

  /** A stem the prune scan of this app would pick up. */
  predicate InTaskNamespace(slug: string, stem: string) {
    TaskStemPrefix(slug) <= stem
  }

  /** The files `apply` and `remove` of this app may write or delete. */
  predicate UnitTouches(slug: string, f: File) {
    || f == UnitFile(slug)
    || (f.dir != Caddy && InTaskNamespace(slug, f.stem))
  }

  /** The files a whole deploy of this app may write or delete. */
  predicate Touches(slug: string, f: File) {
    UnitTouches(slug, f) || f == Fragment(slug)
  }

  /** One slug extended by a dash begins with the other extended by `-task-`. */
  predicate Shadows(a: string, b: string) {
    a + TASK_INFIX <= b + "-"
  }

  predicate Clash(a: string, b: string) {
    a == b || Shadows(a, b) || Shadows(b, a)
  }

  lemma UnitStemIsNoTaskStem(slug: string)
    ensures !InTaskNamespace(slug, UnitName(slug))
  {
  }

  lemma TaskStemsDiffer(slug: string, t: string, u: string)
    ensures TaskUnitName(slug, t) == TaskUnitName(slug, u) ==> t == u
  {
    var p := TaskStemPrefix(slug);
    assert (p + t)[|p|..] == t && (p + u)[|p|..] == u;
  }

  lemma TaskStemInNamespace(slug: string, t: string)
    ensures InTaskNamespace(slug, TaskUnitName(slug, t))
  {
  }

  lemma UnitNameInjective(a: string, b: string)
    ensures UnitName(a) == UnitName(b) ==> a == b
  {
    assert UnitName(a)[|UNIT_PREFIX|..] == a && UnitName(b)[|UNIT_PREFIX|..] == b;
  }

  lemma StripUnitPrefix(slug: string, rest: string)
    ensures TaskStemPrefix(slug) == UNIT_PREFIX + (slug + TASK_INFIX)
    ensures UNIT_PREFIX + (slug + TASK_INFIX) <= UNIT_PREFIX + rest <==> slug + TASK_INFIX <= rest
  {
    var q := slug + TASK_INFIX;
    assert UNIT_PREFIX + slug + TASK_INFIX == UNIT_PREFIX + q;
    if UNIT_PREFIX + q <= UNIT_PREFIX + rest {
      assert (UNIT_PREFIX + rest)[..|UNIT_PREFIX + q|] == UNIT_PREFIX + q;
      assert rest[..|q|] == (UNIT_PREFIX + rest)[|UNIT_PREFIX|..|UNIT_PREFIX + q|] ==
          (UNIT_PREFIX + q)[|UNIT_PREFIX|..] == q;
    }
    if q <= rest {
      assert rest == q + rest[|q|..];
      assert UNIT_PREFIX + rest == UNIT_PREFIX + q + rest[|q|..];
    }
  }

  /** A unit file of `b` inside the task namespace of `a` means that `a` shadows `b`. */
  lemma UnitInNamespace(a: string, b: string)
    requires InTaskNamespace(a, UnitName(b))
    ensures Shadows(a, b)
  {
    StripUnitPrefix(a, b);
    assert b == a + TASK_INFIX + b[|a + TASK_INFIX|..];
    assert b + "-" == a + TASK_INFIX + (b[|a + TASK_INFIX|..] + "-");
  }

  /** A stem in both task namespaces, the shorter slug first. */
  lemma SharedStem(a: string, b: string, stem: string)
    requires InTaskNamespace(a, stem) && InTaskNamespace(b, stem) && |a| <= |b|
    ensures a == b || Shadows(a, b)
  {
    var n := |UNIT_PREFIX|;
    var pa, pb := TaskStemPrefix(a), TaskStemPrefix(b);
    assert stem[..|pa|] == pa && stem[..|pb|] == pb;
    assert a == pa[n..n + |a|] == stem[n..n + |a|] == pb[n..n + |a|] == b[..|a|];
    var gap := |b| - |a|;
    if gap == 0 {
      assert a == b;
    } else {
      // What follows the shorter slug is both "-task-" and the tail of the longer one.
      var extended := b + TASK_INFIX;
      assert pb[n..] == extended;
      assert extended[|a|..|a| + 6] == TASK_INFIX by {
        assert TASK_INFIX == pa[n + |a|..n + |a| + 6] == stem[n + |a|..n + |a| + 6] == pb[n + |a|..n + |a| + 6];
      }
      // Were the gap shorter, the dash opening the second infix would be a letter of the first.
      assert extended[|b|] == '-';
      assert gap < 6 ==> extended[|a|..|a| + 6][gap] == extended[|b|];
      var dashed := b + "-";
      assert dashed == extended[..|b| + 1];
      assert dashed[..|a| + 6] == extended[..|a| + 6] == a + TASK_INFIX;
    }
  }

  /** Two apps whose slugs do not clash have no file in common. */
  lemma NoClashNoSharedFile(a: string, b: string, f: File)
    requires !Clash(a, b)
    ensures !(Touches(a, f) && Touches(b, f))
  {
    if Touches(a, f) && Touches(b, f) {
      UnitNameInjective(a, b);
      if f == UnitFile(a) && InTaskNamespace(b, f.stem) { UnitInNamespace(b, a); }
      if f == UnitFile(b) && InTaskNamespace(a, f.stem) { UnitInNamespace(a, b); }
      if InTaskNamespace(a, f.stem) && InTaskNamespace(b, f.stem) {
        if |a| <= |b| { SharedStem(a, b, f.stem); } else { SharedStem(b, a, f.stem); }
      }
    }
  }

  /** The files an app can come to own: its unit, its fragment, and both files of any task. */
  ghost predicate CanOwn(slug: string, f: File) {
    || f == UnitFile(slug)
    || f == Fragment(slug)
    || exists t :: t != "" && WellFormed(t)
        && (f == TaskContainer(TaskUnitName(slug, t)) || f == TaskTimer(TaskUnitName(slug, t)))
  }

  /** A shadowed app owns a file that the shadowing app's deploys delete. */
  lemma ShadowedFile(a: string, b: string) returns (f: File)
    requires a != b && Shadows(a, b)
    ensures CanOwn(b, f) && InTaskNamespace(a, f.stem) && f == TaskContainer(f.stem)
  {
    var q := a + TASK_INFIX;
    if |q| <= |b| {
      f := UnitFile(b);
      assert q <= b by { assert (b + "-")[..|q|] == b[..|q|]; }
      StripUnitPrefix(a, b);
    } else {
      // Here b is a followed by "-task": its unit is safe, every task file it has is not.
      assert q == b + "-";
      var stem := TaskUnitName(b, "task");
      f := TaskContainer(stem);
      assert WellFormed("task");
      assert stem == UNIT_PREFIX + (b + TASK_INFIX + "task");
      assert b + TASK_INFIX + "task" == q + ("task-" + "task");
      StripUnitPrefix(a, b + TASK_INFIX + "task");
    }
  }

  /** Isolation, exactly: no file of one app is within the other's reach iff the slugs do not clash. */
  lemma IsolatedIffNoClash(a: string, b: string)
    requires a != b
    ensures !Clash(a, b) <==> forall f :: !(Touches(a, f) && CanOwn(b, f)) && !(Touches(b, f) && CanOwn(a, f))
  {
    if !Clash(a, b) {
      forall f ensures !(Touches(a, f) && CanOwn(b, f)) && !(Touches(b, f) && CanOwn(a, f)) {
        NoClashNoSharedFile(a, b, f);
        CanOwnIsTouched(a, f);
        CanOwnIsTouched(b, f);
      }
    } else if Shadows(a, b) {
      var f := ShadowedFile(a, b);
      assert Touches(a, f) && CanOwn(b, f);
    } else {
      var f := ShadowedFile(b, a);
      assert Touches(b, f) && CanOwn(a, f);
    }
  }

  lemma CanOwnIsTouched(slug: string, f: File)
    ensures CanOwn(slug, f) ==> Touches(slug, f)
  {
  }
}
