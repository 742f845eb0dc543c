/** When two key packages share a directory: storage ids keep only 48 bits of the digest of the ARN. */
module Directories {
  import opened Basics
  import opened Text
  import opened KmsArn
  import Hex

  lemma {:induction false} EncodeTake(bytes: Bytes, k: nat)
    requires k <= |bytes|
    ensures Hex.Encode(bytes)[..2 * k] == Hex.Encode(bytes[..k])
  {
    if k > 0 {
      EncodeTake(bytes[1..], k - 1);
      assert bytes[..k][1..] == bytes[1..][..k - 1];
      var rest := Hex.Encode(bytes[1..]);
      assert Hex.Encode(bytes)[..2 * k]
             == [Hex.HexDigit(bytes[0] / 16), Hex.HexDigit(bytes[0] % 16)] + rest[..2 * (k - 1)];
    }
  }

  /** Two accepted ARNs share a directory exactly if their display ids and the first 48 bits of their digests agree. */
  lemma SharedDirectory(a: string, b: string, da: Bytes, db: Bytes)
    requires |da| == 32 && |db| == 32 && StorageId(da, a).Ok? && StorageId(db, b).Ok?
    ensures StorageId(da, a) == StorageId(db, b) <==> DisplayId(a) == DisplayId(b) && da[..6] == db[..6]
  {
    var x, y := Hex.Encode(da)[..12], Hex.Encode(db)[..12];
    EncodeTake(da, 6);
    EncodeTake(db, 6);
    if x == y {
      Hex.EncodeInjective(da[..6], db[..6]);
    }
    var s, t := DisplayId(a).value + "-" + x, DisplayId(b).value + "-" + y;
    assert s[|s| - 12..] == x && t[|t| - 12..] == y;
    assert s[..|s| - 13] == DisplayId(a).value && t[..|t| - 13] == DisplayId(b).value;
  }

  // ----- there are more ARNs than directories -----

  function Number(bytes: Bytes): nat {
    if bytes == [] then 0 else bytes[0] as int + 256 * Number(bytes[1..])
  }

  function Power(base: nat, k: nat): nat {
    if k == 0 then 1 else base * Power(base, k - 1)
  }

  lemma {:induction false} NumberBound(bytes: Bytes)
    ensures Number(bytes) < Power(256, |bytes|)
  {
    if bytes != [] {
      NumberBound(bytes[1..]);
    }
  }

  lemma {:induction false} NumberInjective(a: Bytes, b: Bytes)
    requires |a| == |b| && Number(a) == Number(b)
    ensures a == b
  {
    if a != [] {
      var x, y := Number(a[1..]), Number(b[1..]);
      assert a[0] as int + 256 * x == b[0] as int + 256 * y;
      NumberInjective(a[1..], b[1..]);
      assert a == [a[0]] + a[1..] && b == [b[0]] + b[1..];
    }
  }

  /** Binary digits, the last one first. */
  function Bits(n: nat, k: nat): (text: string)
    ensures |text| == k && forall i :: 0 <= i < k ==> text[i] == '0' || text[i] == '1'
  {
    if k == 0 then "" else [if n % 2 == 0 then '0' else '1'] + Bits(n / 2, k - 1)
  }

  lemma {:induction false} BitsInjective(m: nat, n: nat, k: nat)
    requires m < Power(2, k) && n < Power(2, k) && Bits(m, k) == Bits(n, k)
    ensures m == n
  {
    if k > 0 {
      assert Bits(m, k)[0] == Bits(n, k)[0];
      assert Bits(m, k)[1..] == Bits(m / 2, k - 1) && Bits(n, k)[1..] == Bits(n / 2, k - 1);
      BitsInjective(m / 2, n / 2, k - 1);
    }
  }

  lemma {:induction false} Pigeonhole(f: int -> int, n: nat) returns (i: nat, j: nat)
    requires forall k :: 0 <= k <= n ==> 0 <= f(k) < n
    ensures i < j <= n && f(i) == f(j)
  {
    if k: nat :| k < n && f(k) == f(n) {
      i, j := k, n;
    } else {
      assert 0 <= f(n) < n;
      var last := f(n);
      var g := (k: int) => if f(k) > last then f(k) - 1 else f(k);
      i, j := Pigeonhole(g, n - 1);
    }
  }

  const KEY_FRONT := "1234abcd-12ab-34cd-56ef-1234"
  const KEY_END := "567890ab"
  const KEY_ID := KEY_FRONT + KEY_END

  /** ARNs of one key id in different accounts. */
  function FamilyArn(n: nat): string {
    Compose(KeyArn("aws", "eu-west-1", Bits(n, 49), KEY_ID))
  }

  lemma KeyIdFacts()
    ensures SafeId(KEY_ID) && KEY_ID != "" && LastEight(KEY_ID) == KEY_END
  {
    assert |KEY_FRONT| == 28 && |KEY_END| == 8;
    assert SafeId(KEY_FRONT) && SafeId(KEY_END);
    assert KEY_ID[|KEY_FRONT|..] == KEY_END;
  }

  lemma FamilyAccepted(n: nat)
    ensures RegionFromArn(FamilyArn(n)) == Ok("eu-west-1") && AccountFromArn(FamilyArn(n)) == Ok(Bits(n, 49))
    ensures DisplayId(FamilyArn(n)) == Ok(KEY_END)
  {
    hide RegionFromArn;
    hide AccountFromArn;
    hide DisplayId;
    hide Compose;
    hide Bits;
    hide LastEight;
    hide SafeId;
    var a := KeyArn("aws", "eu-west-1", Bits(n, 49), KEY_ID);
    KeyIdFacts();
    assert ColonFree(a);
    assert !EarlyKey(a) by { assert "key/"[0] == 'k' && a.partition[0] == 'a' && a.region[0] == 'e' && a.account[0] != 'k'; }
    RegionReaderAccepts(a);
    DisplayReads(a);
  }

  /** Two ARNs of different accounts, both accepted, whose packages go to the same directory. */
  ghost predicate ShareDirectory(digest: string -> Bytes32, a: string, b: string) {
    && AccountFromArn(a).Ok? && AccountFromArn(b).Ok? && AccountFromArn(a) != AccountFromArn(b)
    && StorageId(digest(a), a).Ok? && StorageId(digest(a), a) == StorageId(digest(b), b)
  }

  /** Whatever the hash, one key id in some two different accounts shares a directory. */
  lemma DirectoriesCollide(digest: string -> Bytes32)
    ensures exists i: nat, j: nat :: ShareDirectory(digest, FamilyArn(i), FamilyArn(j))
  {
    hide FamilyArn;
    hide Number;
    hide DisplayId;
    hide RegionFromArn;
    hide AccountFromArn;
    var f := (n: int) => if n < 0 then 0 else Number(digest(FamilyArn(n))[..6]);
    forall k | 0 <= k <= Power(256, 6) ensures 0 <= f(k) < Power(256, 6) {
      NumberBound(digest(FamilyArn(k))[..6]);
    }
    var i, j := Pigeonhole(f, Power(256, 6));
    var a, b := FamilyArn(i), FamilyArn(j);
    NumberInjective(digest(a)[..6], digest(b)[..6]);
    FamilyAccepted(i);
    FamilyAccepted(j);
    SharedDirectory(a, b, digest(a), digest(b));
    Powers();
    if Bits(i, 49) == Bits(j, 49) { BitsInjective(i, j, 49); }
    assert ShareDirectory(digest, a, b);
  }

  lemma Powers()
    ensures Power(256, 6) == 0x1_0000_0000_0000 && Power(2, 49) == 0x2_0000_0000_0000
  {
    PowerStep(2, 48);
    PowerSquare(2, 24);
    PowerSquare(2, 12);
    PowerSquare(2, 6);
    PowerSquare(2, 3);
    PowerSquare(256, 3);
  }

  lemma PowerStep(base: nat, k: nat)
    ensures Power(base, k + 1) == base * Power(base, k)
  {
  }

  lemma {:induction false} PowerSum(base: nat, j: nat, k: nat)
    ensures Power(base, j + k) == Power(base, j) * Power(base, k)
  {
    if j > 0 {
      PowerSum(base, j - 1, k);
      var x, y := Power(base, j - 1), Power(base, k);
      assert base * (x * y) == (base * x) * y;
    }
  }

  lemma PowerSquare(base: nat, k: nat)
    ensures Power(base, 2 * k) == Power(base, k) * Power(base, k)
  {
    PowerSum(base, k, k);
  }
}
