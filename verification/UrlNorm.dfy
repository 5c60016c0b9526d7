/**
 Percent-encoding normalisation of URL paths (crates/core-model/src/url_norm.rs), after
 sections 6.2.2.1 and 6.2.2.2 of RFC 3986 with the unreserved set of section 2.3.
 Paths are byte sequences; copying a multi-byte character copies its bytes.
 */
module UrlNorm {

  type Byte = x: int | 0 <= x < 256 witness 0

  const PERCENT: Byte := 0x25
  const SLASH: Byte := 0x2F

  predicate IsUnreserved(b: Byte) {
    || 0x30 <= b <= 0x39 || 0x41 <= b <= 0x5A || 0x61 <= b <= 0x7A
    || b == 0x2D || b == 0x2E || b == 0x5F || b == 0x7E
  }

  predicate IsHex(b: Byte) {
    0x30 <= b <= 0x39 || 0x41 <= b <= 0x46 || 0x61 <= b <= 0x66
  }

  function HexValue(b: Byte): (v: int)
    requires IsHex(b)
    ensures 0 <= v < 16
  {
    if b <= 0x39 then b - 0x30 else if b <= 0x46 then b - 0x37 else b - 0x57
  }

  function UpperHex(v: int): (b: Byte)
    requires 0 <= v < 16
    ensures IsHex(b) && HexValue(b) == v && !(0x61 <= b <= 0x66)
  {
    if v < 10 then 0x30 + v else 0x37 + v
  }

  /** A path read from left to right: literal bytes and escape triplets. */
  datatype Token = Token(octet: Byte, escaped: bool)

  predicate StartsTriplet(s: seq<Byte>) {
    |s| >= 3 && s[0] == PERCENT && IsHex(s[1]) && IsHex(s[2])
  }

  function Octet(hi: Byte, lo: Byte): Byte
    requires IsHex(hi) && IsHex(lo)
  {
    HexValue(hi) * 16 + HexValue(lo)
  }

  function Tokens(s: seq<Byte>): seq<Token> {
    if s == [] then []
    else if StartsTriplet(s) then [Token(Octet(s[1], s[2]), true)] + Tokens(s[3..])
    else [Token(s[0], false)] + Tokens(s[1..])
  }

  /** The octets that a path denotes. */
  function Decode(s: seq<Byte>): seq<Byte> {
    Octets(Tokens(s))
  }

  function Octets(ts: seq<Token>): seq<Byte> {
    seq(|ts|, i requires 0 <= i < |ts| => ts[i].octet)
  }

  // ----- the code -----

  function Escape(v: Byte): seq<Byte> {
    [PERCENT, UpperHex(v / 16), UpperHex(v % 16)]
  }

  function Normalize(s: seq<Byte>): seq<Byte> {
    if s == [] then []
    else if StartsTriplet(s) then
      var v := Octet(s[1], s[2]);
      (if IsUnreserved(v) then [v] else Escape(v)) + Normalize(s[3..])
    else [s[0]] + Normalize(s[1..])
  }

  /** What one turn of the loop appends, and how far it moves. */
  function Piece(s: seq<Byte>): (r: (seq<Byte>, nat))
    requires s != []
    ensures 0 < r.1 <= |s|
  {
    if StartsTriplet(s) then
      var v := Octet(s[1], s[2]);
      (if IsUnreserved(v) then [v] else Escape(v), 3)
    else ([s[0]], 1)
  }

  lemma NormalizeTurn(path: seq<Byte>, i: nat, out: seq<Byte>)
    requires i < |path|
    ensures var (piece, n) := Piece(path[i..]);
            out + Normalize(path[i..]) == (out + piece) + Normalize(path[i + n..])
  {
    var (piece, n) := Piece(path[i..]);
    assert path[i..][n..] == path[i + n..];
    assert Normalize(path[i..]) == piece + Normalize(path[i + n..]);
  }

  lemma TripletAt(path: seq<Byte>, i: nat)
    requires i < |path|
    ensures StartsTriplet(path[i..]) <==>
              path[i] == PERCENT && i + 2 < |path| && IsHex(path[i + 1]) && IsHex(path[i + 2])
    ensures Piece(path[i..]) ==
              if StartsTriplet(path[i..]) then
                var v := Octet(path[i + 1], path[i + 2]); (if IsUnreserved(v) then [v] else Escape(v), 3)
              else ([path[i]], 1)
  {
  }

  /** The loop over an index and an output buffer. */
  method NormalizePercentEncoding(path: seq<Byte>) returns (out: seq<Byte>)
    ensures out == Normalize(path)
  {
    out := [];
    var i := 0;
    while i < |path|
      invariant 0 <= i <= |path|
      invariant out + Normalize(path[i..]) == Normalize(path)
    {
      NormalizeTurn(path, i, out);
      TripletAt(path, i);
      if path[i] == PERCENT && i + 2 < |path| && IsHex(path[i + 1]) && IsHex(path[i + 2]) {
        var value := Octet(path[i + 1], path[i + 2]);
        out := out + if IsUnreserved(value) then [value] else Escape(value);
        i := i + 3;
        continue;
      }
      out := out + [path[i]];
      i := i + 1;
    }
  }

  // ----- normalisation as a map on tokens -----

  function Canon(t: Token): Token {
    t.(escaped := t.escaped && !IsUnreserved(t.octet))
  }

  function CanonAll(ts: seq<Token>): seq<Token> {
    seq(|ts|, i requires 0 <= i < |ts| => Canon(ts[i]))
  }

  function Render(t: Token): seq<Byte> {
    if t.escaped then Escape(t.octet) else [t.octet]
  }

  function RenderAll(ts: seq<Token>): seq<Byte> {
    if ts == [] then [] else Render(ts[0]) + RenderAll(ts[1..])
  }

  lemma {:induction false} NormalizeIsCanon(s: seq<Byte>)
    ensures Normalize(s) == RenderAll(CanonAll(Tokens(s)))
  {
    if s != [] {
      var n := if StartsTriplet(s) then 3 else 1;
      NormalizeIsCanon(s[n..]);
      assert CanonAll(Tokens(s))[1..] == CanonAll(Tokens(s[n..]));
    }
  }

  /** A literal hex digit. */
  predicate LiteralHex(t: Token) {
    !t.escaped && IsHex(t.octet)
  }

  /** A literal percent sign right before two literal hex digits: printed, it reads as an escape. */
  predicate Armed(ts: seq<Token>) {
    |ts| >= 3 && ts[0] == Token(PERCENT, false) && LiteralHex(ts[1]) && LiteralHex(ts[2])
  }

  predicate Unarmed(ts: seq<Token>) {
    ts == [] || (!Armed(ts) && Unarmed(ts[1..]))
  }

  lemma RenderHead(ts: seq<Token>)
    requires ts != []
    ensures |RenderAll(ts)| >= 1
    ensures ts[0].escaped ==>
              StartsTriplet(RenderAll(ts)) && RenderAll(ts)[3..] == RenderAll(ts[1..])
              && Octet(RenderAll(ts)[1], RenderAll(ts)[2]) == ts[0].octet
    ensures !ts[0].escaped ==> RenderAll(ts)[0] == ts[0].octet && RenderAll(ts)[1..] == RenderAll(ts[1..])
  {
  }

  /** The first byte of a rendering is a hex digit exactly when the first token is a literal one. */
  lemma HeadIsHex(ts: seq<Token>)
    ensures RenderAll(ts) != [] && IsHex(RenderAll(ts)[0]) <==> ts != [] && LiteralHex(ts[0])
  {
    if ts != [] { RenderHead(ts); }
  }

  lemma TripletIffArmed(ts: seq<Token>)
    requires ts != [] && !ts[0].escaped
    ensures StartsTriplet(RenderAll(ts)) <==> Armed(ts)
  {
    RenderHead(ts);
    HeadIsHex(ts[1..]);
    if |ts| >= 2 && !ts[1].escaped {
      RenderHead(ts[1..]);
      HeadIsHex(ts[2..]);
      assert ts[1..][1..] == ts[2..];
      assert RenderAll(ts)[2..] == RenderAll(ts[1..])[1..];
    }
  }

  /** Reading back a rendering gives the tokens again when none of them is armed. */
  lemma {:induction false} TokensOfRender(ts: seq<Token>)
    requires Unarmed(ts)
    ensures Tokens(RenderAll(ts)) == ts
  {
    if ts != [] {
      RenderHead(ts);
      TokensOfRender(ts[1..]);
      if !ts[0].escaped { TripletIffArmed(ts); }
    }
  }

  /** ... and gives fewer tokens when one is. */
  lemma {:induction false} ArmedLosesTokens(ts: seq<Token>)
    ensures |Tokens(RenderAll(ts))| <= |ts|
    ensures !Unarmed(ts) ==> |Tokens(RenderAll(ts))| < |ts|
  {
    if ts != [] {
      RenderHead(ts);
      if ts[0].escaped {
        ArmedLosesTokens(ts[1..]);
      } else {
        TripletIffArmed(ts);
        if Armed(ts) {
          RenderHead(ts[1..]);
          RenderHead(ts[2..]);
          assert ts[1..][1..] == ts[2..] && ts[2..][1..] == ts[3..];
          assert RenderAll(ts)[3..] == RenderAll(ts[3..]);
          ArmedLosesTokens(ts[3..]);
        } else {
          ArmedLosesTokens(ts[1..]);
        }
      }
    }
  }

  /** The path has no percent sign that normalisation would turn into the start of an escape. */
  predicate Safe(s: seq<Byte>) {
    Unarmed(CanonAll(Tokens(s)))
  }

  /** Every percent sign starts an escape. */
  predicate WellFormed(s: seq<Byte>) {
    s == [] || (if StartsTriplet(s) then WellFormed(s[3..]) else s[0] != PERCENT && WellFormed(s[1..]))
  }

  lemma {:induction false} WellFormedHasNoLiteralPercent(s: seq<Byte>)
    ensures WellFormed(s) <==> Token(PERCENT, false) !in Tokens(s)
  {
    if s != [] { WellFormedHasNoLiteralPercent(if StartsTriplet(s) then s[3..] else s[1..]); }
  }

  lemma {:induction false} NoLiteralPercentIsUnarmed(ts: seq<Token>)
    requires Token(PERCENT, false) !in ts
    ensures Unarmed(ts)
  {
    if ts != [] { NoLiteralPercentIsUnarmed(ts[1..]); }
  }

  lemma WellFormedIsSafe(s: seq<Byte>)
    requires WellFormed(s)
    ensures Safe(s)
  {
    WellFormedHasNoLiteralPercent(s);
    var ts := CanonAll(Tokens(s));
    forall i | 0 <= i < |ts| ensures ts[i] != Token(PERCENT, false) {
      assert Tokens(s)[i] in Tokens(s);
    }
    NoLiteralPercentIsUnarmed(ts);
  }

  /**
   Meaning is preserved exactly on safe paths: the decoded octets are the same if and only if
   no stray percent sign is followed by two tokens that denote hex digits.
   */
  lemma MeaningPreservedIff(s: seq<Byte>)
    ensures Decode(Normalize(s)) == Decode(s) <==> Safe(s)
    ensures Safe(s) ==> Tokens(Normalize(s)) == CanonAll(Tokens(s))
  {
    NormalizeIsCanon(s);
    var ts := CanonAll(Tokens(s));
    assert Octets(ts) == Octets(Tokens(s));
    if Safe(s) {
      TokensOfRender(ts);
    } else {
      ArmedLosesTokens(ts);
      assert |Decode(Normalize(s))| < |Decode(s)|;
    }
  }

  /** Normalising twice is normalising once, on safe paths and so on well-formed ones. */
  lemma NormalizeIdempotent(s: seq<Byte>)
    requires Safe(s)
    ensures Normalize(Normalize(s)) == Normalize(s) && Safe(Normalize(s))
  {
    MeaningPreservedIff(s);
    NormalizeIsCanon(s);
    NormalizeIsCanon(Normalize(s));
    var ts := CanonAll(Tokens(s));
    assert CanonAll(ts) == ts;
  }

  /** The escape that an armed percent sign spells is already in normal form. */
  predicate SpellsCanonical(hi: Byte, lo: Byte) {
    && IsHex(hi) && IsHex(lo)
    && !IsUnreserved(Octet(hi, lo)) && Escape(Octet(hi, lo)) == [PERCENT, hi, lo]
  }

  /** Every armed percent sign spells a canonical escape. */
  predicate Stable(ts: seq<Token>) {
    ts == []
    || (if Armed(ts) then SpellsCanonical(ts[1].octet, ts[2].octet) && Stable(ts[3..]) else Stable(ts[1..]))
  }

  lemma {:induction false} NormalizeShrinks(s: seq<Byte>)
    ensures |Normalize(s)| <= |s|
  {
    if s != [] { NormalizeShrinks(if StartsTriplet(s) then s[3..] else s[1..]); }
  }

  lemma ArmedRendering(ts: seq<Token>)
    requires Armed(ts)
    ensures RenderAll(ts) == [PERCENT, ts[1].octet, ts[2].octet] + RenderAll(ts[3..])
  {
    assert ts[1..][1..] == ts[2..] && ts[2..][1..] == ts[3..];
    assert RenderAll(ts[1..]) == [ts[1].octet] + RenderAll(ts[2..]);
    assert RenderAll(ts[2..]) == [ts[2].octet] + RenderAll(ts[3..]);
  }

  lemma ArmedStep(ts: seq<Token>)
    requires Armed(ts)
    ensures var s := RenderAll(ts);
            Normalize(s) == s <==>
              SpellsCanonical(ts[1].octet, ts[2].octet) && Normalize(RenderAll(ts[3..])) == RenderAll(ts[3..])
  {
    var s, rest := RenderAll(ts), RenderAll(ts[3..]);
    ArmedRendering(ts);
    assert s[3..] == rest && s[..3] == [PERCENT, ts[1].octet, ts[2].octet];
    NormalizeShrinks(rest);
    var v := Octet(ts[1].octet, ts[2].octet);
    if !IsUnreserved(v) {
      assert Normalize(s) == Escape(v) + Normalize(rest);
      assert Normalize(s)[..3] == Escape(v) && Normalize(s)[3..] == Normalize(rest);
    } else {
      assert Normalize(s) == [v] + Normalize(rest);
      assert |Normalize(s)| < |s|;
    }
  }

  lemma {:induction false} StableIffFixed(ts: seq<Token>)
    requires forall i :: 0 <= i < |ts| ==> Canon(ts[i]) == ts[i]
    ensures Normalize(RenderAll(ts)) == RenderAll(ts) <==> Stable(ts)
  {
    if ts != [] {
      var s, rest := RenderAll(ts), RenderAll(ts[1..]);
      RenderHead(ts);
      if ts[0].escaped {
        StableIffFixed(ts[1..]);
        assert s == Escape(ts[0].octet) + rest && Normalize(s) == Escape(ts[0].octet) + Normalize(rest);
        assert s[3..] == rest && Normalize(s)[3..] == Normalize(rest);
      } else if Armed(ts) {
        StableIffFixed(ts[3..]);
        ArmedStep(ts);
      } else {
        TripletIffArmed(ts);
        StableIffFixed(ts[1..]);
        assert s[1..] == rest && Normalize(s)[1..] == Normalize(rest);
      }
    }
  }

  /**
   Exactly when is normalising twice the same as normalising once? When every stray percent
   sign that ends up before two hex digits spells an escape already in normal form.
   */
  lemma IdempotentIff(s: seq<Byte>)
    ensures Normalize(Normalize(s)) == Normalize(s) <==> Stable(CanonAll(Tokens(s)))
  {
    NormalizeIsCanon(s);
    StableIffFixed(CanonAll(Tokens(s)));
  }

  /** The stray percent sign of `%%341` is why a condition is needed: it becomes `%41`, then `A`. */
  lemma StrayPercentChangesMeaning(s: seq<Byte>)
    requires s == [0x25, 0x25, 0x33, 0x34, 0x31]
    ensures Normalize(s) == [0x25, 0x34, 0x31] && Normalize(Normalize(s)) == [0x41]
    ensures !WellFormed(s) && !Safe(s)
  {
    assert s[1..] == [0x25, 0x33, 0x34, 0x31] && s[1..][3..] == [0x31];
    assert Normalize(s[1..][3..]) == [0x31] && Normalize(s[1..]) == [0x34, 0x31];
    var n := Normalize(s);
    assert n == [0x25, 0x34, 0x31] && n[3..] == [];
    assert Tokens(s[1..][3..]) == [Token(0x31, false)];
    assert |Tokens(s[1..])| == 2 && |Tokens(s)| == 3;
    assert Tokens(n[3..]) == [] && |Tokens(n)| == 1;
    MeaningPreservedIff(s);
  }

  // ----- the alphabets, written out -----

  const UPPER_DIGITS: string := "0123456789ABCDEF"
  const LOWER_DIGITS: string := "0123456789abcdef"
  const UPPER_LETTERS: string := "ABCDEFGHIJKLMNOPQRSTUVWXYZ"
  const LOWER_LETTERS: string := "abcdefghijklmnopqrstuvwxyz"
  const DIGITS_AND_MARKS: string := "0123456789-._~"

  /** The hexadecimal digits are the characters of the two alphabets, each with its position as value. */
  lemma HexDigitsAre(v: nat)
    requires v < 16
    ensures IsHex(UPPER_DIGITS[v] as int) && HexValue(UPPER_DIGITS[v] as int) == v
    ensures IsHex(LOWER_DIGITS[v] as int) && HexValue(LOWER_DIGITS[v] as int) == v
    ensures UpperHex(v) == UPPER_DIGITS[v] as int
  {
  }

  /** ... and no other byte is one. */
  lemma OnlyTheseAreHex(b: Byte)
    requires IsHex(b)
    ensures exists v :: 0 <= v < 16 && (b == UPPER_DIGITS[v] as int || b == LOWER_DIGITS[v] as int)
  {
    var v := if b <= 0x39 then b - 0x30 else if b <= 0x46 then b - 0x37 else b - 0x57;
    assert b == UPPER_DIGITS[v] as int || b == LOWER_DIGITS[v] as int;
  }

  lemma LettersAt(i: nat)
    requires i < 26
    ensures UPPER_LETTERS[i] as int == 0x41 + i && LOWER_LETTERS[i] as int == 0x61 + i
  {
  }

  lemma DigitsAndMarksAt(i: nat)
    requires i < 14
    ensures DIGITS_AND_MARKS[i] as int ==
              if i < 10 then 0x30 + i else if i == 10 then 0x2D else if i == 11 then 0x2E else if i == 12 then 0x5F else 0x7E
  {
  }

  /** The unreserved characters of section 2.3 of RFC 3986. */
  predicate Listed(b: Byte) {
    || (exists i :: 0 <= i < 26 && UPPER_LETTERS[i] as int == b)
    || (exists i :: 0 <= i < 26 && LOWER_LETTERS[i] as int == b)
    || (exists i :: 0 <= i < 14 && DIGITS_AND_MARKS[i] as int == b)
  }

  lemma UnreservedAre(b: Byte)
    ensures IsUnreserved(b) <==> Listed(b)
  {
    if IsUnreserved(b) {
      if 0x41 <= b <= 0x5A { LettersAt(b - 0x41); }
      else if 0x61 <= b <= 0x7A { LettersAt(b - 0x61); }
      else {
        DigitsAndMarksAt(if b <= 0x39 && b >= 0x30 then b - 0x30 else if b == 0x2D then 10
                         else if b == 0x2E then 11 else if b == 0x5F then 12 else 13);
      }
    }
    forall i | 0 <= i < 26 ensures IsUnreserved(UPPER_LETTERS[i] as int) && IsUnreserved(LOWER_LETTERS[i] as int) {
      LettersAt(i);
    }
    forall i | 0 <= i < 14 ensures IsUnreserved(DIGITS_AND_MARKS[i] as int) { DigitsAndMarksAt(i); }
  }

  /**
   What becomes of the escape of octet `v`, in either case of its two digits: the octet itself if it is
   in the list of section 2.3 of RFC 3986, and otherwise a percent sign with upper-case digits.
   */
  lemma EscapeNormalizes(v: nat, hi: Byte, lo: Byte)
    requires v < 256
    requires hi == UPPER_DIGITS[v / 16] as int || hi == LOWER_DIGITS[v / 16] as int
    requires lo == UPPER_DIGITS[v % 16] as int || lo == LOWER_DIGITS[v % 16] as int
    ensures Normalize([0x25, hi, lo]) ==
              if Listed(v) then [v]
              else [0x25, UPPER_DIGITS[v / 16] as int, UPPER_DIGITS[v % 16] as int]
  {
    HexDigitsAre(v / 16);
    HexDigitsAre(v % 16);
    UnreservedAre(v);
    assert [0x25, hi, lo][3..] == [];
    assert Octet(hi, lo) == v;
  }

  // ----- structure -----

  /** A slash is no hex digit, so what comes before it is read alike with and without it. */
  lemma SamePiece(a: seq<Byte>, b: seq<Byte>)
    requires a != []
    ensures Piece(a + [SLASH] + b) == Piece(a)
    ensures (a + [SLASH] + b)[Piece(a).1..] == a[Piece(a).1..] + [SLASH] + b
  {
    var s := a + [SLASH] + b;
    assert |a| == 1 ==> s[1] == SLASH;
    assert |a| == 2 ==> s[2] == SLASH;
  }

  lemma Glue(p: seq<Byte>, x: seq<Byte>, y: seq<Byte>)
    ensures p + (x + [SLASH] + y) == (p + x) + [SLASH] + y
  {
  }

  /** Normalisation goes segment by segment: a literal slash is never made, lost or crossed. */
  lemma {:induction false} SlashesAreKept(a: seq<Byte>, b: seq<Byte>)
    ensures Normalize(a + [0x2F] + b) == Normalize(a) + [0x2F] + Normalize(b)
  {
    NormalizeStep(a + [SLASH] + b);
    if a == [] {
      assert a + [SLASH] + b == [SLASH] + b && ([SLASH] + b)[1..] == b;
    } else {
      var (piece, n) := Piece(a);
      SamePiece(a, b);
      SlashesAreKept(a[n..], b);
      NormalizeStep(a);
      Glue(piece, Normalize(a[n..]), Normalize(b));
    }
  }

  lemma NormalizeStep(s: seq<Byte>)
    requires s != []
    ensures Normalize(s) == Piece(s).0 + Normalize(s[Piece(s).1..])
  {
  }

  lemma {:induction false} NoSlashIsMade(s: seq<Byte>)
    ensures 0x2F in Normalize(s) <==> 0x2F in s
  {
    if s != [] {
      var n := if StartsTriplet(s) then 3 else 1;
      NoSlashIsMade(s[n..]);
      assert s == s[..n] + s[n..];
      assert SLASH in s[..n] <==> n == 1 && s[0] == SLASH;
    }
  }

  // ----- which paths are identified -----

  /** The same octet, and the same form unless the octet is unreserved. */
  predicate SameToken(a: Token, b: Token) {
    a.octet == b.octet && (IsUnreserved(a.octet) || a.escaped == b.escaped)
  }

  /** The paths differ only in hex case and in whether unreserved octets are escaped. */
  predicate Equivalent(s: seq<Byte>, t: seq<Byte>) {
    && |Tokens(s)| == |Tokens(t)|
    && forall i :: 0 <= i < |Tokens(s)| ==> SameToken(Tokens(s)[i], Tokens(t)[i])
  }

  /**
   Two safe paths (in particular two well-formed ones) become the same string exactly when
   they are equivalent in the sense of RFC 3986.
   */
  lemma IdentifiedIffEquivalent(s: seq<Byte>, t: seq<Byte>)
    requires Safe(s) && Safe(t)
    ensures Normalize(s) == Normalize(t) <==> Equivalent(s, t)
  {
    MeaningPreservedIff(s);
    MeaningPreservedIff(t);
    NormalizeIsCanon(s);
    NormalizeIsCanon(t);
    var a, b := Tokens(s), Tokens(t);
    if Equivalent(s, t) {
      assert CanonAll(a) == CanonAll(b);
    }
    if Normalize(s) == Normalize(t) {
      forall i | 0 <= i < |a| ensures SameToken(a[i], b[i]) {
        assert CanonAll(a)[i] == CanonAll(b)[i];
      }
    }
  }
}
