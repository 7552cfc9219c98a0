/** Message templates: strings that address a user through the placeholder
    `{username}`, resolved by replacing the first occurrence of the
    placeholder with the user's display name. */
module Template {
  import opened Text

  const Placeholder: string := "{username}"

  /** The placeholder as the templates use it: behind an `@`. */
  const Mention: string := "@" + Placeholder

  /** Resolving a template for a user: the first placeholder becomes the name. */
  function Fill(template: string, username: string): string {
    ReplaceFirst(template, Placeholder, username)
  }

  /** `t` has `@{username}` with the placeholder starting at `p`, and no `{`
      before it, so that occurrence is the first one. */
  predicate MarkedAt(t: string, p: int) {
    1 <= p <= |t| && t[p - 1] == '@' && OccursAt(t, Placeholder, p) && '{' !in t[..p]
  }

  /** `t` addresses its user: it contains `@{username}`, and that is where
      its first placeholder is. */
  ghost predicate WellFormed(t: string) {
    exists p :: MarkedAt(t, p)
  }

  /** A template written as text, then `@{username}`, then text, is well formed. */
  lemma Marked(t: string, pre: string, post: string)
    requires t == pre + Mention + post
    requires '{' !in pre
    ensures MarkedAt(t, |pre| + 1)
  {
    var p := |pre| + 1;
    assert t[p..p + |Placeholder|] == Placeholder;
    assert t[..p] == pre + "@";
  }

  /** A template that opens with `@{username}` is well formed. */
  lemma MarkedFront(t: string, post: string)
    requires t == Mention + post
    ensures MarkedAt(t, 1)
  {
    assert t[1..1 + |Placeholder|] == Placeholder;
    assert t[..1] == "@";
  }

  /** In a well-formed template the first placeholder is the marked one. */
  lemma FirstPlaceholder(t: string, p: int)
    requires MarkedAt(t, p)
    ensures IndexOf(t, Placeholder) == p
  {
    forall k | 0 <= k < p ensures !OccursAt(t, Placeholder, k) {
      assert t[..p][k] == t[k];
      if k + |Placeholder| <= |t| {
        assert t[k..k + |Placeholder|][0] == t[k];
      }
    }
  }

  /** Filling replaces the first placeholder by the name and keeps the text
      around it, so the result addresses the user as `@` followed by the name. */
  lemma FillMarked(t: string, p: int, username: string)
    requires MarkedAt(t, p)
    ensures Fill(t, username) == t[..p] + username + t[p + |Placeholder|..]
    ensures |Fill(t, username)| == |t| - |Placeholder| + |username|
    ensures Contains(Fill(t, username), "@" + username)
  {
    FirstPlaceholder(t, p);
    var r := Fill(t, username);
    assert r == t[..p] + username + t[p + |Placeholder|..];
    assert r[p - 1..p - 1 + |"@" + username|] == "@" + username;
    ContainsAt(r, "@" + username, p - 1);
  }

  /** The same fact for a well-formed template, without naming the position. */
  lemma FillAddresses(t: string, username: string)
    requires WellFormed(t)
    ensures |Fill(t, username)| == |t| - |Placeholder| + |username|
    ensures Contains(Fill(t, username), "@" + username)
  {
    var p :| MarkedAt(t, p);
    FillMarked(t, p, username);
  }

  /** Filling a template of the form text, `@{username}`, text. */
  lemma FillSplit(pre: string, post: string, username: string)
    requires '{' !in pre
    ensures Fill(pre + Mention + post, username) == pre + "@" + username + post
  {
    var t := pre + Mention + post;
    Marked(t, pre, post);
    FillMarked(t, |pre| + 1, username);
    assert t[..|pre| + 1] == pre + "@";
    assert t[|pre| + 1 + |Placeholder|..] == post;
  }

  /** Filling a template that starts with `@{username}`. */
  lemma FillFront(post: string, username: string)
    ensures Fill(Mention + post, username) == "@" + username + post
  {
    FillSplit("", post, username);
    assert "" + Mention + post == Mention + post;
    assert "" + "@" + username + post == "@" + username + post;
  }
}
