/**
 * The UUID batch generator: `generateUuids` draws `count` version-4 UUIDs
 * and returns them in the canonical hyphenated form or, for the format
 * `'raw'`, with every hyphen removed.
 *
 * The random generator is not modelled: `draws(i)` stands for what the
 * i-th call of `uuidv4()` in one call of `generateUuids` returns.
 */
module UuidGenerator {
  import opened Wrappers

  /** `GenerateUuidArgs`: both fields may be absent; `format` is whatever string the caller sent. */
  datatype GenerateUuidArgs = GenerateUuidArgs(count: Option<int>, format: Option<string>)

  /** `u.replace(/-/g, '')`. */
  function StripHyphens(u: string): (r: string)
    ensures '-' !in r
    ensures |r| <= |u|
    ensures forall c :: c != '-' ==> multiset(r)[c] == multiset(u)[c]
  {
    if u == [] then []
    else
      assert u == [u[0]] + u[1..];
      (if u[0] == '-' then [] else [u[0]]) + StripHyphens(u[1..])
  }

  /** The number of elements a count asks for: the loop `i < count` runs max(count, 0) times. */
  function Iterations(count: int): nat {
    if count > 0 then count else 0
  }

  /** `generateUuids(options)`, with `draws` as the generator. */
  method GenerateUuids(options: GenerateUuidArgs, draws: nat -> string) returns (uuids: seq<string>)
    ensures |uuids| == Iterations(options.count.GetOr(1))
    ensures options.count == None ==> |uuids| == 1
    ensures forall n :: options.count == Some(n) && n <= 0 ==> uuids == []
    ensures options.format == Some("raw") ==>
      forall i :: 0 <= i < |uuids| ==> uuids[i] == StripHyphens(draws(i)) && '-' !in uuids[i]
    ensures options.format != Some("raw") ==>
      forall i :: 0 <= i < |uuids| ==> uuids[i] == draws(i)
  {
    var count := options.count.GetOr(1);
    var format := options.format.GetOr("formatted");
    uuids := [];
    var i := 0;
    while i < count
      invariant 0 <= i <= Iterations(count)
      invariant |uuids| == i
      invariant forall k :: 0 <= k < i ==>
        uuids[k] == if format == "raw" then StripHyphens(draws(k)) else draws(k)
    {
      var newUuid := draws(i);
      uuids := uuids + [if format == "raw" then StripHyphens(newUuid) else newUuid];
      i := i + 1;
    }
  }

  // ---------------------------------------------------------------------
  // The canonical and the raw textual forms
  // ---------------------------------------------------------------------

  /** A lowercase hexadecimal digit, as `uuidv4()` writes them. */
  predicate IsHexDigit(c: char) {
    ('0' <= c <= '9') || ('a' <= c <= 'f')
  }

  /** The positions of the four hyphens in the 8-4-4-4-12 form. */
  predicate IsHyphenPosition(i: int) {
    i == 8 || i == 13 || i == 18 || i == 23
  }

  /** The canonical 36-character 8-4-4-4-12 form (section 4 of RFC 9562). */
  predicate IsCanonical(u: string) {
    |u| == 36 &&
    forall i :: 0 <= i < 36 ==> if IsHyphenPosition(i) then u[i] == '-' else IsHexDigit(u[i])
  }

  /** A canonical UUID with the version 4 nibble and the `10xx` variant bits (section 5.4 of RFC 9562). */
  predicate IsVersion4(u: string) {
    IsCanonical(u) && u[14] == '4' && u[19] in "89ab"
  }

  /** The raw form: 32 hexadecimal digits. */
  predicate IsRaw(r: string) {
    |r| == 32 && forall i :: 0 <= i < 32 ==> IsHexDigit(r[i])
  }

  /** Put the hyphens back after digits 8, 12, 16 and 20. */
  function InsertHyphens(r: string): string
    requires |r| == 32
  {
    r[..8] + "-" + r[8..12] + "-" + r[12..16] + "-" + r[16..20] + "-" + r[20..]
  }

  /** Removing hyphens distributes over concatenation. */
  lemma {:induction false} StripHyphensConcat(a: string, b: string)
    ensures StripHyphens(a + b) == StripHyphens(a) + StripHyphens(b)
    decreases |a|
  {
    if a != [] {
      assert (a + b)[1..] == a[1..] + b;
      StripHyphensConcat(a[1..], b);
    } else {
      assert a + b == b;
    }
  }

  /** A string without hyphens is left as it is. */
  lemma {:induction false} StripHyphensNoHyphen(a: string)
    requires '-' !in a
    ensures StripHyphens(a) == a
    decreases |a|
  {
    if a != [] {
      assert '-' !in a[1..];
      StripHyphensNoHyphen(a[1..]);
    }
  }

  /** Gluing a hyphen and a hyphen-free piece onto `a` adds just that piece to its raw form. */
  lemma StripGlue(a: string, b: string)
    requires '-' !in b
    ensures StripHyphens(a + "-" + b) == StripHyphens(a) + b
  {
    StripHyphensNoHyphen(b);
    StripHyphensConcat(a + "-", b);
    StripHyphensConcat(a, "-");
  }

  /** Stripping hyphen-free pieces glued with single hyphens concatenates the pieces. */
  lemma StripFive(p1: string, p2: string, p3: string, p4: string, p5: string)
    requires '-' !in p1 && '-' !in p2 && '-' !in p3 && '-' !in p4 && '-' !in p5
    ensures StripHyphens(p1 + "-" + p2 + "-" + p3 + "-" + p4 + "-" + p5) == p1 + p2 + p3 + p4 + p5
  {
    StripHyphensNoHyphen(p1);
    var a2 := p1 + "-" + p2;
    StripGlue(p1, p2);
    var a3 := a2 + "-" + p3;
    StripGlue(a2, p3);
    var a4 := a3 + "-" + p4;
    StripGlue(a3, p4);
    StripGlue(a4, p5);
  }

  /**
   * The raw form of a canonical UUID is 32 hexadecimal digits, and putting
   * the hyphens back gives the canonical form again.
   */
  lemma CanonicalRoundTrip(u: string)
    requires IsCanonical(u)
    ensures IsRaw(StripHyphens(u))
    ensures InsertHyphens(StripHyphens(u)) == u
  {
    var p1, p2, p3, p4, p5 := u[..8], u[9..13], u[14..18], u[19..23], u[24..];
    assert forall k :: 0 <= k < 8 ==> p1[k] == u[k] && !IsHyphenPosition(k);
    assert forall k :: 0 <= k < 4 ==> p2[k] == u[9 + k] && !IsHyphenPosition(9 + k);
    assert forall k :: 0 <= k < 4 ==> p3[k] == u[14 + k] && !IsHyphenPosition(14 + k);
    assert forall k :: 0 <= k < 4 ==> p4[k] == u[19 + k] && !IsHyphenPosition(19 + k);
    assert forall k :: 0 <= k < 12 ==> p5[k] == u[24 + k] && !IsHyphenPosition(24 + k);
    assert u == p1 + "-" + p2 + "-" + p3 + "-" + p4 + "-" + p5;
    StripFive(p1, p2, p3, p4, p5);
    var r := p1 + p2 + p3 + p4 + p5;
    assert r[..8] == p1 && r[8..12] == p2 && r[12..16] == p3 && r[16..20] == p4 && r[20..] == p5;
  }

  /** Conversely, hyphenating 32 hexadecimal digits gives a canonical UUID whose raw form is those digits. */
  lemma RawRoundTrip(r: string)
    requires IsRaw(r)
    ensures IsCanonical(InsertHyphens(r))
    ensures StripHyphens(InsertHyphens(r)) == r
  {
    var p1, p2, p3, p4, p5 := r[..8], r[8..12], r[12..16], r[16..20], r[20..];
    assert forall k :: 0 <= k < 8 ==> IsHexDigit(p1[k]);
    assert forall k :: 0 <= k < 4 ==> IsHexDigit(p2[k]) && IsHexDigit(p3[k]) && IsHexDigit(p4[k]);
    assert forall k :: 0 <= k < 12 ==> IsHexDigit(p5[k]);
    StripFive(p1, p2, p3, p4, p5);
    assert p1 + p2 + p3 + p4 + p5 == r;
  }

  /** The raw form of a version 4 UUID keeps the version digit at 12 and the variant digit at 16. */
  lemma Version4Raw(u: string)
    requires IsVersion4(u)
    ensures IsRaw(StripHyphens(u))
    ensures StripHyphens(u)[12] == '4' && StripHyphens(u)[16] in "89ab"
  {
    CanonicalRoundTrip(u);
    var r := StripHyphens(u);
    assert InsertHyphens(r)[14] == r[12];
    assert InsertHyphens(r)[19] == r[16];
  }

  /**
   * The two formats from the same draws agree: each raw element is its
   * formatted element without hyphens, and when every draw is canonical,
   * hyphenating a raw element gives the formatted one back.
   */
  method RawMatchesFormatted(count: int, draws: nat -> string)
    returns (formatted: seq<string>, raw: seq<string>)
    ensures |formatted| == |raw| == Iterations(count)
    ensures forall i :: 0 <= i < |raw| ==> raw[i] == StripHyphens(formatted[i])
    ensures (forall i: nat :: i < Iterations(count) ==> IsCanonical(draws(i))) ==>
      forall i :: 0 <= i < |raw| ==> IsRaw(raw[i]) && InsertHyphens(raw[i]) == formatted[i]
  {
    formatted := GenerateUuids(GenerateUuidArgs(Some(count), Some("formatted")), draws);
    raw := GenerateUuids(GenerateUuidArgs(Some(count), Some("raw")), draws);
    if forall i: nat :: i < Iterations(count) ==> IsCanonical(draws(i)) {
      forall i | 0 <= i < |raw|
        ensures IsRaw(raw[i]) && InsertHyphens(raw[i]) == formatted[i]
      {
        CanonicalRoundTrip(draws(i));
      }
    }
  }
}
