/** The media type of a Content-Type header, as mime.ParseMediaType reads it: ASCII text whose
    parameters are well formed. */
module MediaTypes {

  predicate IsSpace(c: char) {
    c == ' ' || c == '\t' || c == '\n' || c == '\r' || c == '\U{0B}' || c == '\U{0C}'
  }

  function Lower(c: char): char {
    if 'A' <= c <= 'Z' then (c as int + 32) as char else c
  }

  function Folded(s: string): (r: string)
    ensures |r| == |s| && forall i :: 0 <= i < |s| ==> r[i] == Lower(s[i])
  {
    seq(|s|, i requires 0 <= i < |s| => Lower(s[i]))
  }

  function UpToSemicolon(header: string): string {
    if header == "" || header[0] == ';' then "" else [header[0]] + UpToSemicolon(header[1..])
  }

  function TrimLeft(s: string): string {
    if s != "" && IsSpace(s[0]) then TrimLeft(s[1..]) else s
  }

  function TrimRight(s: string): string {
    if s != "" && IsSpace(s[|s| - 1]) then TrimRight(s[..|s| - 1]) else s
  }

  /** The media type of a Content-Type header: its parameters dropped, in lower case, trimmed. */
  function MediaType(header: string): string {
    TrimRight(TrimLeft(Folded(UpToSemicolon(header))))
  }

  const WHITE := " \t\n\r\U{0B}\U{0C}"

  /** Nothing but ASCII white space. */
  predicate Blank(s: string) {
    forall i :: 0 <= i < |s| ==> s[i] in WHITE
  }

  lemma SpacesAreWhite(c: char)
    ensures IsSpace(c) <==> c in WHITE
  {
    assert WHITE == [' ', '\t', '\n', '\r', '\U{0B}', '\U{0C}'];
  }

  lemma {:induction false} CutAtSemicolon(s: string, rest: string)
    requires ';' !in s && (rest == "" || rest[0] == ';')
    ensures UpToSemicolon(s + rest) == s
  {
    if s == "" {
      assert s + rest == rest;
    } else {
      assert (s + rest)[1..] == s[1..] + rest;
      CutAtSemicolon(s[1..], rest);
      assert s == [s[0]] + s[1..];
    }
  }

  lemma {:induction false} TrimBoth(pre: string, word: string, post: string)
    requires Blank(pre) && Blank(post) && word != "" && word[0] !in WHITE && word[|word| - 1] !in WHITE
    ensures TrimRight(TrimLeft(pre + word + post)) == word
    decreases |pre| + |post|
  {
    var s := pre + word + post;
    SpacesAreWhite(s[0]);
    SpacesAreWhite(s[|s| - 1]);
    if pre != "" {
      assert s[1..] == pre[1..] + word + post;
      TrimBoth(pre[1..], word, post);
    } else if post != "" {
      var last := |post| - 1;
      TrimBoth(pre, word, post[..last]);
      assert s[0] == word[0] && (pre + word + post[..last])[0] == word[0];
      assert s[..|s| - 1] == pre + word + post[..last];
    } else {
      assert s == word;
    }
  }

  lemma {:induction false} TrimBlank(s: string)
    requires Blank(s)
    ensures TrimLeft(s) == ""
  {
    if s != "" {
      SpacesAreWhite(s[0]);
      TrimBlank(s[1..]);
    }
  }

  lemma SpacesDoNotFold(pre: string, word: string, post: string)
    requires Blank(pre) && Blank(post)
    ensures Folded(pre + word + post) == pre + Folded(word) + post
    ensures ';' !in pre && ';' !in post && (word != "" && word[0] !in WHITE ==> Folded(word)[0] !in WHITE)
    ensures word != "" && word[|word| - 1] !in WHITE ==> Folded(word)[|word| - 1] !in WHITE
  {
    assert WHITE == [' ', '\t', '\n', '\r', '\U{0B}', '\U{0C}'];
  }

  /** Case, blanks around it and parameters behind it do not change a media type; a header that
      is blank up to its parameters has none. */
  lemma MediaTypeOf(pre: string, word: string, post: string, rest: string)
    requires Blank(pre) && Blank(post) && ';' !in word && (rest == "" || rest[0] == ';')
    requires word != "" ==> word[0] !in WHITE && word[|word| - 1] !in WHITE
    ensures MediaType(pre + word + post + rest) == Folded(word)
  {
    var s := pre + word + post;
    SpacesDoNotFold(pre, word, post);
    CutAtSemicolon(s, rest);
    if word != "" {
      TrimBoth(pre, Folded(word), post);
    } else {
      assert Blank(Folded(s));
      TrimBlank(Folded(s));
    }
  }

  const CAPITALS := "ABCDEFGHIJKLMNOPQRSTUVWXYZ"
  const SMALL := "abcdefghijklmnopqrstuvwxyz"

  /** Folding takes each capital to its small letter and leaves every other character. */
  lemma FoldingIsByLetter(s: string, i: nat, k: nat)
    requires i < |s| && k < 26
    ensures s[i] == CAPITALS[k] ==> Folded(s)[i] == SMALL[k]
    ensures s[i] !in CAPITALS ==> Folded(s)[i] == s[i]
  {
    assert CAPITALS[k] as int == 'A' as int + k && SMALL[k] as int == 'a' as int + k;
    if 'A' <= s[i] <= 'Z' {
      assert CAPITALS[s[i] as int - 'A' as int] == s[i];
    }
  }
}
