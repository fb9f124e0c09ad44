/** The string operations the filters use, over a character table with the facts they rely on. */
module Text {

  // How characters map to lower case, which compare equal ignoring case, and which are white space.
  datatype Chars = Chars(lower: char -> char, fold: char -> char, space: char -> bool)

  // Lower case maps white space to white space and nothing else to it.
  ghost predicate Sound(u: Chars) {
    forall c: char :: u.space(u.lower(c)) == u.space(c)
  }

  function Lower(u: Chars, s: string): (r: string)
    ensures |r| == |s|
    ensures forall i :: 0 <= i < |s| ==> r[i] == u.lower(s[i])
  {
    seq(|s|, i requires 0 <= i < |s| => u.lower(s[i]))
  }

  predicate EqualFold(u: Chars, s: string, t: string) {
    |s| == |t| && forall i :: 0 <= i < |s| ==> u.fold(s[i]) == u.fold(t[i])
  }

  function TrimLeft(u: Chars, s: string): string {
    if s != [] && u.space(s[0]) then TrimLeft(u, s[1..]) else s
  }

  function TrimRight(u: Chars, s: string): string {
    if s != [] && u.space(s[|s| - 1]) then TrimRight(u, s[..|s| - 1]) else s
  }

  function Trim(u: Chars, s: string): string {
    TrimRight(u, TrimLeft(u, s))
  }

  // The pieces between commas: one more than there are commas.
  function SplitCommas(s: string): (parts: seq<string>)
    ensures |parts| > 0
  {
    if s == [] then [""]
    else
      var rest := SplitCommas(s[1..]);
      if s[0] == ',' then [""] + rest else [[s[0]] + rest[0]] + rest[1..]
  }

  predicate Contains(s: string, t: string) {
    t <= s || (s != [] && Contains(s[1..], t))
  }

  lemma {:induction false} TrimLeftLower(u: Chars, s: string)
    requires Sound(u)
    ensures TrimLeft(u, Lower(u, s)) == Lower(u, TrimLeft(u, s))
  {
    if s != [] {
      assert Lower(u, s)[1..] == Lower(u, s[1..]);
      TrimLeftLower(u, s[1..]);
    }
  }

  lemma {:induction false} TrimRightLower(u: Chars, s: string)
    requires Sound(u)
    ensures TrimRight(u, Lower(u, s)) == Lower(u, TrimRight(u, s))
  {
    if s != [] {
      assert Lower(u, s)[..|s| - 1] == Lower(u, s[..|s| - 1]);
      TrimRightLower(u, s[..|s| - 1]);
    }
  }

  // Trimming and lowering commute.
  lemma TrimLower(u: Chars, s: string)
    requires Sound(u)
    ensures Trim(u, Lower(u, s)) == Lower(u, Trim(u, s))
  {
    TrimLeftLower(u, s);
    TrimRightLower(u, TrimLeft(u, s));
  }

  function JoinCommas(parts: seq<string>): string
    requires |parts| > 0
  {
    if |parts| == 1 then parts[0] else parts[0] + "," + JoinCommas(parts[1..])
  }

  // The pieces hold no comma and put together again are the string.
  lemma {:induction false} SplitMeaning(s: string)
    ensures JoinCommas(SplitCommas(s)) == s
    ensures forall k :: 0 <= k < |SplitCommas(s)| ==> ',' !in SplitCommas(s)[k]
  {
    if s != [] {
      SplitMeaning(s[1..]);
      var rest := SplitCommas(s[1..]);
      assert s == [s[0]] + s[1..];
      if s[0] == ',' {
        assert ([""] + rest)[1..] == rest;
      } else {
        assert ([[s[0]] + rest[0]] + rest[1..])[1..] == rest[1..];
      }
    }
  }
}
