/** The log-safe rendering of a MongoDB connection URI that the client
    builder prints when it creates a client. */
module MongoClient {
  import opened Lang

  /** The placeholder written where the credentials were. */
  const Placeholder: string := "password"

  /** `stripPassword`: when the URI has an `@` after its first character and a
      `:` after its first character, everything from the first `:` up to the
      first `@` is replaced by the placeholder; otherwise the URI is returned
      as it is. */
  function StripPassword(uri: string): (r: string)
  {
    var at := IndexOf(uri, '@');
    if at > 0 then
      var col := IndexOf(uri, ':');
      if col > 0 then uri[..col] + Placeholder + uri[at..] else uri
    else uri
  }

  /** Without an `@` past the first character nothing is rewritten. */
  lemma NoAtUnchanged(uri: string)
    requires IndexOf(uri, '@') <= 0
    ensures StripPassword(uri) == uri
  {
  }

  /** With an `@` but no `:` past the first character nothing is rewritten. */
  lemma NoColonUnchanged(uri: string)
    requires IndexOf(uri, '@') > 0 && IndexOf(uri, ':') <= 0
    ensures StripPassword(uri) == uri
  {
  }

  /** Otherwise the result keeps the text before the first `:`, then the
      placeholder, then the text from the first `@`: it always ends with the
      host part, and its length is fixed by the two positions. */
  lemma Rewritten(uri: string)
    requires IndexOf(uri, '@') > 0 && IndexOf(uri, ':') > 0
    ensures var at := IndexOf(uri, '@');
            var col := IndexOf(uri, ':');
            var r := StripPassword(uri);
            && StartsWith(r, uri[..col])
            && r[col..col + |Placeholder|] == Placeholder
            && EndsWith(r, uri[at..])
            && |r| == col + |Placeholder| + |uri| - at
  {
    var at := IndexOf(uri, '@');
    var col := IndexOf(uri, ':');
    var r := StripPassword(uri);
    assert r == uri[..col] + Placeholder + uri[at..];
    assert r[..col] == uri[..col];
    assert r[|r| - |uri[at..]|..] == uri[at..];
  }

  /** The rewrite is only changed text when credentials are present: a URI
      whose result differs from it has both an `@` and a `:` past its first
      character. */
  lemma ChangedOnlyWithBoth(uri: string)
    requires StripPassword(uri) != uri
    ensures IndexOf(uri, '@') > 0 && IndexOf(uri, ':') > 0
  {
  }

  /** A `user:secret@host` URI loses its secret: with a non-empty `a` free of
      `:` and `@` and a `b` free of `@`, the text `b` between the first `:`
      and the first `@` is replaced by the placeholder. */
  lemma CredentialsReplaced(a: string, b: string, c: string)
    requires |a| > 0 && ':' !in a && '@' !in a && '@' !in b
    ensures StripPassword(a + ":" + b + "@" + c) == a + Placeholder + "@" + c
  {
    var uri := a + ":" + b + "@" + c;
    assert uri == a + (":" + b + "@" + c);
    PrefixIndex(a, ":" + b + "@" + c, ':');
    assert uri == (a + ":" + b) + ("@" + c);
    PrefixIndex(a + ":" + b, "@" + c, '@');
    assert uri[..|a|] == a;
    assert uri[|a| + 1 + |b|..] == "@" + c;
  }

  /** When the rest after the first `@` holds no `:` the result holds no `:`
      at all, so a second rewrite changes nothing. */
  lemma Idempotent(uri: string)
    requires IndexOf(uri, '@') > 0 && IndexOf(uri, ':') > 0
    requires ':' !in uri[IndexOf(uri, '@')..]
    ensures ':' !in StripPassword(uri)
    ensures StripPassword(StripPassword(uri)) == StripPassword(uri)
  {
    var col := IndexOf(uri, ':');
    var at := IndexOf(uri, '@');
    var r := StripPassword(uri);
    assert r == uri[..col] + Placeholder + uri[at..];
    assert ':' !in Placeholder;
    assert IndexOf(r, ':') == -1;
  }

  /** When the first `:` is a port after the `@` (with `a`, the text before
      the `@`, non-empty and free of `:`, and `b` free of `:`), the text from
      the `@` up to the port appears twice in the result. */
  lemma PortAfterAt(a: string, b: string, c: string)
    requires |a| > 0 && ':' !in a && '@' !in a && ':' !in b
    ensures StripPassword(a + "@" + b + ":" + c) == (a + "@" + b) + Placeholder + ("@" + b + ":" + c)
  {
    var uri := a + "@" + b + ":" + c;
    assert uri == a + ("@" + b + ":" + c);
    PrefixIndex(a, "@" + b + ":" + c, '@');
    assert uri == (a + "@" + b) + (":" + c);
    PrefixIndex(a + "@" + b, ":" + c, ':');
    assert uri[..|a| + 1 + |b|] == a + "@" + b;
    assert uri[|a|..] == "@" + b + ":" + c;
  }

  /** Where `c` first occurs in `x + y` when `x` does not hold it and `y`
      begins with it. */
  lemma PrefixIndex(x: string, y: string, c: char)
    requires c !in x
    requires |y| > 0 && y[0] == c
    ensures IndexOf(x + y, c) == |x|
  {
    var s := x + y;
    assert s[..|x|] == x;
    assert s[|x|] == c;
  }

  /** The usual scheme-prefixed URI: the first `:` is the scheme's, so the
      scheme's `://` and the user name go too. */
  lemma SchemeExample()
    ensures StripPassword("mongodb://u:p@h") == "mongodbpassword@h"
  {
    assert "mongodb" + ":" + "//u:p" + "@" + "h" == "mongodb://u:p@h";
    assert "mongodb" + Placeholder + "@" + "h" == "mongodbpassword@h";
    CredentialsReplaced("mongodb", "//u:p", "h");
  }
}
