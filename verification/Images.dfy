/** The image a deploy builds, and how a reference to it is taken apart. */
module Images {
  import opened Slugs

  function ImageReference(slug: string, commit: string): string {
    "localhost/kuadrat-" + slug + ":" + commit
  }

  /** Up to the first colon. */
  function RepositoryOf(image: string): string {
    if image == "" || image[0] == ':' then "" else [image[0]] + RepositoryOf(image[1..])
  }

  /** Behind the first colon. */
  function TagOf(image: string): string {
    if image == "" then "" else if image[0] == ':' then image[1..] else TagOf(image[1..])
  }

  lemma {:induction false} ColonSplits(front: string, tag: string)
    requires ':' !in front
    ensures RepositoryOf(front + ":" + tag) == front && TagOf(front + ":" + tag) == tag
  {
    var image := front + ":" + tag;
    if front == "" {
      assert image[1..] == tag;
    } else {
      assert image[1..] == front[1..] + ":" + tag;
      ColonSplits(front[1..], tag);
      assert [front[0]] + front[1..] == front;
    }
  }

  /** A slug holds no colon, so the repository ends where the slug does and the tag is the commit, whatever it is. */
  lemma ImageReads(slug: string, commit: string)
    requires WellFormed(slug)
    ensures RepositoryOf(ImageReference(slug, commit)) == "localhost/kuadrat-" + slug
    ensures TagOf(ImageReference(slug, commit)) == commit
  {
    ColonSplits("localhost/kuadrat-" + slug, commit);
  }

  /** So a reference fixes both the app and the commit. */
  lemma ImageIsExact(s: string, a: string, t: string, b: string)
    requires WellFormed(s) && WellFormed(t) && ImageReference(s, a) == ImageReference(t, b)
    ensures s == t && a == b
  {
    ImageReads(s, a);
    ImageReads(t, b);
    assert ("localhost/kuadrat-" + s)[|"localhost/kuadrat-"|..] == s;
    assert ("localhost/kuadrat-" + t)[|"localhost/kuadrat-"|..] == t;
  }
}
