/** String helpers shared by several screens: capitalising the first character,
    `split` on one separator, `join`, and the masked display of an API key. */
module Text {

  /** `c.toUpperCase()` on one character, restricted to ASCII. */
  function UpperChar(c: char): (r: char)
    ensures 'a' <= c <= 'z' ==> r as int == c as int - 32
    ensures !('a' <= c <= 'z') ==> r == c
    ensures ('a' <= c <= 'z' || 'A' <= c <= 'Z') <==> 'A' <= r <= 'Z'
    ensures !('a' <= r <= 'z')
  {
    if 'a' <= c <= 'z' then (c as int - 32) as char else c
  }

  /** `s.charAt(0).toUpperCase() + s.slice(1)`. */
  function Capitalize(s: string): (r: string)
    ensures |r| == |s|
    ensures s != [] ==> r[0] == UpperChar(s[0])
    ensures forall i :: 1 <= i < |s| ==> r[i] == s[i]
  {
    if s == [] then [] else [UpperChar(s[0])] + s[1..]
  }

  /** `s.split(sep)` for a one-character separator: the pieces between
      separators, always at least one (`"".split("_")` is `[""]`). */
  function Split(s: string, sep: char): (pieces: seq<string>)
    ensures |pieces| >= 1
    ensures forall k, j :: 0 <= k < |pieces| && 0 <= j < |pieces[k]| ==> pieces[k][j] != sep
    decreases |s|
  {
    if s == [] then [[]]
    else
      var tail := Split(s[1..], sep);
      if s[0] == sep then [[]] + tail
      else [[s[0]] + tail[0]] + tail[1..]
  }

  /** `pieces.join(sep)`: the text starts with the first piece. */
  function Join(pieces: seq<string>, sep: string): (r: string)
    ensures pieces == [] ==> r == []
    ensures pieces != [] ==> |r| >= |pieces[0]| && r[..|pieces[0]|] == pieces[0]
  {
    if pieces == [] then []
    else if |pieces| == 1 then pieces[0]
    else pieces[0] + sep + Join(pieces[1..], sep)
  }

  /** Splitting and joining again with the same separator gives back the text. */
  lemma {:induction false} JoinSplit(s: string, sep: char)
    ensures Join(Split(s, sep), [sep]) == s
    decreases |s|
  {
    if s != [] {
      var tail := Split(s[1..], sep);
      JoinSplit(s[1..], sep);
      if s[0] == sep {
        assert Split(s, sep) == [[]] + tail;
      } else {
        var pieces := Split(s, sep);
        assert pieces == [[s[0]] + tail[0]] + tail[1..];
        if |tail| == 1 {
          assert Join(tail, [sep]) == tail[0];
        } else {
          assert pieces[1..] == tail[1..];
          assert Join(tail, [sep]) == tail[0] + [sep] + Join(tail[1..], [sep]);
        }
      }
    }
  }

  /** Eleven bullets shown after the visible prefix of an API key. */
  const Bullets: string := "•••••••••••"

  /** `key.substring(0, 8)` followed by the bullets: at most eight characters of
      the secret are ever displayed. */
  function MaskKey(key: string): (r: string)
    ensures |r| == (if |key| < 8 then |key| else 8) + 11
    ensures forall i :: 0 <= i < |r| - 11 ==> r[i] == key[i]
    ensures r[|r| - 11..] == Bullets
  {
    (if |key| < 8 then key else key[..8]) + Bullets
  }
}
