/** White space: what trimming leaves, as text and as UTF-8 bytes. */
module TextRules {
  import opened Common
  import opened CanonicalStream

  ghost predicate AllSpace(s: string) { forall i :: 0 <= i < |s| ==> IsSpace(s[i]) }

  /** The text is `core` between white space, and `core` neither begins nor ends with white space. */
  ghost predicate Surrounds(s: string, left: string, core: string, right: string) {
    && s == left + core + right && AllSpace(left) && AllSpace(right)
    && (core != [] ==> !IsSpace(core[0]) && !IsSpace(core[|core| - 1]))
  }

  lemma {:induction false} TrimLeftMeans(s: string) returns (left: string)
    ensures s == left + TrimLeft(s) && AllSpace(left) && (TrimLeft(s) != [] ==> !IsSpace(TrimLeft(s)[0]))
  {
    if s != [] && IsSpace(s[0]) {
      left := TrimLeftMeans(s[1..]);
      left := [s[0]] + left;
      assert s == [s[0]] + s[1..];
    } else {
      left := [];
    }
  }

  lemma {:induction false} TrimRightMeans(s: string) returns (right: string)
    ensures s == TrimRight(s) + right && AllSpace(right) && (TrimRight(s) != [] ==> !IsSpace(TrimRight(s)[|TrimRight(s)| - 1]))
  {
    if s != [] && IsSpace(s[|s| - 1]) {
      right := TrimRightMeans(s[..|s| - 1]);
      right := right + [s[|s| - 1]];
      assert s == s[..|s| - 1] + [s[|s| - 1]];
    } else {
      right := [];
    }
  }

  /** Trimming removes the white space around a text, all of it and nothing else. */
  lemma TrimMeans(s: string) returns (left: string, right: string)
    ensures Surrounds(s, left, Trim(s), right)
  {
    left := TrimLeftMeans(s);
    right := TrimRightMeans(TrimLeft(s));
    assert left + (Trim(s) + right) == left + Trim(s) + right;
    if Trim(s) != [] {
      assert Trim(s)[0] == TrimLeft(s)[0];
    }
  }

  lemma TrimmedIsBlankIff(s: string)
    ensures Trim(s) == [] <==> AllSpace(s)
  {
    var left, right := TrimMeans(s);
    if Trim(s) == [] {
      forall i | 0 <= i < |s| ensures IsSpace(s[i]) {
        if i < |left| { assert s[i] == left[i]; } else { assert s[i] == right[i - |left|]; }
      }
    } else {
      assert s[|left|] == Trim(s)[0];
    }
  }

  // ---------------------------------------------------------------- in UTF-8

  function Encoded(c: char): (bytes: seq<Byte>)
    ensures 1 <= |bytes| <= 4
  {
    var u := c as int;
    if u < 0x80 then [u]
    else if u < 0x800 then [0xC0 + u / 0x40, 0x80 + u % 0x40]
    else if u < 0x10000 then [0xE0 + u / 0x1000, 0x80 + (u / 0x40) % 0x40, 0x80 + u % 0x40]
    else [0xF0 + (u / 0x40000) % 8, 0x80 + (u / 0x1000) % 0x40, 0x80 + (u / 0x40) % 0x40, 0x80 + u % 0x40]
  }

  function Utf8(s: string): seq<Byte> {
    if s == [] then [] else Encoded(s[0]) + Utf8(s[1..])
  }

  /** The bytes begin with a white-space character exactly when the text does. */
  lemma SpaceBytes(c: char, rest: seq<Byte>)
    ensures SpaceLength(Encoded(c) + rest) == if IsSpace(c) then |Encoded(c)| else 0
  {
    var u, text := c as int, Encoded(c) + rest;
    assert forall i :: 0 <= i < |Encoded(c)| ==> text[i] == Encoded(c)[i];
    if u < 0x80 {
    } else if u < 0x800 {
      assert u == (u / 0x40) * 0x40 + u % 0x40;
    } else if u < 0x10000 {
      assert u == (u / 0x1000) * 0x1000 + (u / 0x40) % 0x40 * 0x40 + u % 0x40;
    }
  }

  /** A vendor code is blank as bytes exactly when trimming its text leaves nothing. */
  lemma {:induction false} BlankIff(s: string)
    ensures Blank(Utf8(s)) <==> AllSpace(s)
  {
    if s != [] {
      var rest := Utf8(s[1..]);
      SpaceBytes(s[0], rest);
      BlankIff(s[1..]);
      assert (Encoded(s[0]) + rest)[|Encoded(s[0])|..] == rest;
      assert AllSpace(s) <==> IsSpace(s[0]) && AllSpace(s[1..]) by {
        if IsSpace(s[0]) && AllSpace(s[1..]) {
          forall i | 0 <= i < |s| ensures IsSpace(s[i]) { if i > 0 { assert s[i] == s[1..][i - 1]; } }
        }
      }
    }
  }

  lemma BlankVendorIff(s: string)
    ensures Blank(Utf8(s)) <==> Trim(s) == []
  {
    BlankIff(s);
    TrimmedIsBlankIff(s);
  }
}
