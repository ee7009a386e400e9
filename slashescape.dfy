/** `data.replace('/', r'\/')` (mygengo.py:138): the signing message escapes every
    slash, as the server does when it recomputes the signature. */
module SlashEscape {

  /** Occurrences of `c` in `s`. */
  function Count(s: string, c: char): nat
  {
    if s == [] then 0 else (if s[0] == c then 1 else 0) + Count(s[1..], c)
  }

  /** Every slash is the second half of a `\/` pair. */
  predicate NoBareSlash(r: string)
  {
    forall i :: 0 <= i < |r| && r[i] == '/' ==> 0 < i && r[i - 1] == '\\'
  }

  function EscapeSlashes(s: string): (r: string)
    ensures NoBareSlash(r)
    ensures |r| == |s| + Count(s, '/')
    ensures Count(s, '/') == 0 ==> r == s
  {
    if s == [] then []
    else
      var rest := EscapeSlashes(s[1..]);
      var head := if s[0] == '/' then "\\/" else [s[0]];
      assert forall i :: 0 <= i < |rest| ==> (head + rest)[|head| + i] == rest[i];
      head + rest
  }

  /** The server's reading of an escaped message: each `\/` stands for `/`. */
  function Unescape(r: string): string
  {
    if |r| >= 2 && r[0] == '\\' && r[1] == '/' then "/" + Unescape(r[2..])
    else if r == [] then []
    else [r[0]] + Unescape(r[1..])
  }

  /** Escaping loses nothing: the escaped message reads back as the original. */
  lemma {:induction false} UnescapeEscape(s: string)
    ensures Unescape(EscapeSlashes(s)) == s
  {
    if s != [] {
      var rest := EscapeSlashes(s[1..]);
      UnescapeEscape(s[1..]);
      if s[0] == '/' {
        assert EscapeSlashes(s)[2..] == rest;
      } else {
        assert EscapeSlashes(s)[1..] == rest;
        assert rest != [] ==> rest[0] != '/';
      }
      assert s == [s[0]] + s[1..];
    }
  }

  /** Two messages with the same escaped form are the same message. */
  lemma EscapeInjective(a: string, b: string)
    requires EscapeSlashes(a) == EscapeSlashes(b)
    ensures a == b
  {
    UnescapeEscape(a);
    UnescapeEscape(b);
  }
}
