/**
 Key encodings of the Spark store: length-prefixed record keys and zero-padded revision
 keys. A character stands for one byte of the UTF-8 text, so lengths are byte lengths and
 the order on keys is the byte order the stores sort by.
 */
module SparkKeys {
  import opened Common

  const KEY_MAX_LEN: nat := 120

  // ----- decimal numbers

  function Digit(d: nat): char
    requires d < 10
  {
    '0' + d as char
  }

  predicate IsDigit(c: char) { '0' <= c <= '9' }

  predicate AllDigits(s: string) { forall c :: c in s ==> IsDigit(c) }

  function Decimal(n: nat): (s: string)
    ensures s != [] && AllDigits(s)
  {
    if n < 10 then [Digit(n)] else Decimal(n / 10) + [Digit(n % 10)]
  }

  function Number(s: string): nat
    requires AllDigits(s)
  {
    if s == [] then 0
    else
      var c := s[|s| - 1];
      assert c in s;
      Number(s[..|s| - 1]) * 10 + (c - '0') as nat
  }

  lemma {:induction false} NumberOfDecimal(n: nat)
    ensures Number(Decimal(n)) == n
  {
    if n < 10 {
      assert Decimal(n)[..0] == [];
    } else {
      NumberOfDecimal(n / 10);
      assert Decimal(n)[..|Decimal(n)| - 1] == Decimal(n / 10);
    }
  }

  lemma DecimalIsInjective(m: nat, n: nat)
    requires Decimal(m) == Decimal(n)
    ensures m == n
  {
    NumberOfDecimal(m);
    NumberOfDecimal(n);
  }

  // ----- length-prefixed record keys

  function Prefixed(part: string): string { Decimal(|part|) + "_" + part }

  /** The parts one after the other, each behind its length. */
  function Encode(parts: seq<string>): string {
    if parts == [] then "" else Prefixed(parts[0]) + Encode(parts[1..])
  }

  function FirstUnderscore(s: string): (k: nat)
    ensures k <= |s| && (k < |s| ==> s[k] == '_')
  {
    if s == "" || s[0] == '_' then 0 else 1 + FirstUnderscore(s[1..])
  }

  /** Reads a key back into its parts. */
  function Parse(s: string): Option<seq<string>>
    decreases |s|
  {
    if s == "" then Some([])
    else
      var k := FirstUnderscore(s);
      if k == |s| || !AllDigits(s[..k]) || |s| - k - 1 < Number(s[..k]) then None
      else
        var end := k + 1 + Number(s[..k]);
        match Parse(s[end..])
        case None => None
        case Some(rest) => Some([s[k + 1..end]] + rest)
  }

  lemma {:induction false} UnderscoreAfterDigits(digits: string, rest: string)
    requires AllDigits(digits)
    ensures FirstUnderscore(digits + "_" + rest) == |digits|
  {
    var s := digits + "_" + rest;
    if digits != [] {
      assert digits[0] in digits && digits == [digits[0]] + digits[1..];
      assert s[1..] == digits[1..] + "_" + rest;
      UnderscoreAfterDigits(digits[1..], rest);
    }
  }

  lemma {:induction false} ParseOfEncode(parts: seq<string>)
    ensures Parse(Encode(parts)) == Some(parts)
  {
    if parts != [] {
      var part, tail := parts[0], Encode(parts[1..]);
      var digits, s := Decimal(|part|), Encode(parts);
      assert s == digits + "_" + (part + tail);
      UnderscoreAfterDigits(digits, part + tail);
      NumberOfDecimal(|part|);
      var k := |digits|;
      assert s[..k] == digits;
      assert s[k + 1..] == part + tail;
      assert s[k + 1..k + 1 + |part|] == part && s[k + 1 + |part|..] == tail;
      ParseOfEncode(parts[1..]);
      assert parts == [part] + parts[1..];
    }
  }

  lemma EncodeIsInjective(a: seq<string>, b: seq<string>)
    requires Encode(a) == Encode(b)
    ensures a == b
  {
    ParseOfEncode(a);
    ParseOfEncode(b);
  }

  function SyncRecordKey(parts: seq<string>, sha256Hex: string -> string): string {
    var key := Encode(parts);
    if |key| > KEY_MAX_LEN then "h_" + sha256Hex(key) else key
  }

  /**
   A text that fits the store's limit is the key itself and reads back into its parts; a
   longer one is replaced by its hash, which fits for a 64-digit hash.
   */
  lemma KeyFitsStore(parts: seq<string>, sha256Hex: string -> string)
    ensures |Encode(parts)| <= 120 ==>
      SyncRecordKey(parts, sha256Hex) == Encode(parts) && Parse(SyncRecordKey(parts, sha256Hex)) == Some(parts)
    ensures |Encode(parts)| > 120 ==> SyncRecordKey(parts, sha256Hex) == "h_" + sha256Hex(Encode(parts))
    ensures |sha256Hex(Encode(parts))| == 64 ==> |SyncRecordKey(parts, sha256Hex)| <= 120
  {
    ParseOfEncode(parts);
  }

  /** The same for the keys of records and of incoming revisions, with their parts in order. */
  lemma RecordKeysFitStore(id: RecordId, revision: nat, sha256Hex: string -> string)
    requires forall s :: |sha256Hex(s)| == 64
    ensures |RecordIdKey(id, sha256Hex)| <= 120 && |IncomingRecordKey(id, revision, sha256Hex)| <= 120
    ensures
      RecordIdKey(id, sha256Hex) == "h_" + sha256Hex(Encode([id.ty, id.dataId]))
      || Parse(RecordIdKey(id, sha256Hex)) == Some([id.ty, id.dataId])
    ensures
      IncomingRecordKey(id, revision, sha256Hex) == "h_" + sha256Hex(Encode([id.ty, id.dataId, Decimal(revision)]))
      || Parse(IncomingRecordKey(id, revision, sha256Hex)) == Some([id.ty, id.dataId, Decimal(revision)])
  {
    KeyFitsStore([id.ty, id.dataId], sha256Hex);
    KeyFitsStore([id.ty, id.dataId, Decimal(revision)], sha256Hex);
  }

  /** No hashed key looks like an unhashed one. */
  lemma HashedKeysAreApart(a: seq<string>, b: seq<string>, sha256Hex: string -> string)
    requires |Encode(a)| <= KEY_MAX_LEN < |Encode(b)|
    ensures SyncRecordKey(a, sha256Hex) != SyncRecordKey(b, sha256Hex)
  {
    if a != [] {
      var key := SyncRecordKey(a, sha256Hex);
      assert key[0] == Decimal(|a[0]|)[0] && Decimal(|a[0]|)[0] in Decimal(|a[0]|);
      assert IsDigit(key[0]) && SyncRecordKey(b, sha256Hex)[0] == 'h';
    }
  }

  /** Two part lists share a key only if they are equal or their over-long keys collide. */
  lemma SyncRecordKeyIsInjective(a: seq<string>, b: seq<string>, sha256Hex: string -> string)
    requires sha256Hex(Encode(a)) == sha256Hex(Encode(b)) ==> Encode(a) == Encode(b)
    ensures SyncRecordKey(a, sha256Hex) == SyncRecordKey(b, sha256Hex) <==> a == b
  {
    if |Encode(a)| <= KEY_MAX_LEN < |Encode(b)| { HashedKeysAreApart(a, b, sha256Hex); }
    if |Encode(b)| <= KEY_MAX_LEN < |Encode(a)| { HashedKeysAreApart(b, a, sha256Hex); }
    if SyncRecordKey(a, sha256Hex) == SyncRecordKey(b, sha256Hex) {
      if |Encode(a)| > KEY_MAX_LEN {
        assert SyncRecordKey(a, sha256Hex)[2..] == sha256Hex(Encode(a));
        assert SyncRecordKey(b, sha256Hex)[2..] == sha256Hex(Encode(b));
      }
      EncodeIsInjective(a, b);
    }
  }

  datatype RecordId = RecordId(ty: string, dataId: string)

  function RecordIdKey(id: RecordId, sha256Hex: string -> string): string {
    SyncRecordKey([id.ty, id.dataId], sha256Hex)
  }

  function IncomingRecordKey(id: RecordId, revision: nat, sha256Hex: string -> string): string {
    SyncRecordKey([id.ty, id.dataId, Decimal(revision)], sha256Hex)
  }

  /** The hash tells the given texts apart. */
  ghost predicate CollisionFree(h: string -> string, texts: set<string>) {
    forall x, y :: x in texts && y in texts && h(x) == h(y) ==> x == y
  }

  /**
   Records never share a key, and an incoming revision never overwrites another, unless
   the texts behind these very keys collide under the hash.
   */
  lemma RecordKeysIdentifyRecords(a: RecordId, m: nat, b: RecordId, n: nat, sha256Hex: string -> string)
    requires CollisionFree(sha256Hex, {
      Encode([a.ty, a.dataId]), Encode([b.ty, b.dataId]),
      Encode([a.ty, a.dataId, Decimal(m)]), Encode([b.ty, b.dataId, Decimal(n)])})
    ensures RecordIdKey(a, sha256Hex) == RecordIdKey(b, sha256Hex) <==> a == b
    ensures IncomingRecordKey(a, m, sha256Hex) == IncomingRecordKey(b, n, sha256Hex) <==> a == b && m == n
    ensures RecordIdKey(a, sha256Hex) != IncomingRecordKey(b, n, sha256Hex)
  {
    var x, y := [a.ty, a.dataId], [b.ty, b.dataId];
    var u, v := [a.ty, a.dataId, Decimal(m)], [b.ty, b.dataId, Decimal(n)];
    SyncRecordKeyIsInjective(x, y, sha256Hex);
    SyncRecordKeyIsInjective(u, v, sha256Hex);
    SyncRecordKeyIsInjective(x, v, sha256Hex);
    assert x == y <==> x[0] == y[0] && x[1] == y[1];
    assert u == v <==> u[0] == v[0] && u[1] == v[1] && u[2] == v[2];
    if u == v { DecimalIsInjective(m, n); }
  }

  // ----- zero-padded revision keys

  function Zeros(n: nat): string { seq(n, _ => '0') }

  /** The `{:020}` format. */
  function RevisionKey(n: nat): string {
    if |Decimal(n)| < 20 then Zeros(20 - |Decimal(n)|) + Decimal(n) else Decimal(n)
  }

  /** Byte-wise string order. */
  predicate Less(a: string, b: string) {
    if b == "" then false
    else if a == "" then true
    else if a[0] != b[0] then a[0] < b[0]
    else Less(a[1..], b[1..])
  }

  function Fixed(n: nat, width: nat): (s: string)
    ensures |s| == width
  {
    if width == 0 then "" else Fixed(n / 10, width - 1) + [Digit(n % 10)]
  }

  function Pow10(k: nat): nat { if k == 0 then 1 else 10 * Pow10(k - 1) }

  lemma {:induction false} LessSnoc(a: string, b: string, c: char, d: char)
    requires |a| == |b|
    ensures Less(a + [c], b + [d]) <==> Less(a, b) || (a == b && c < d)
  {
    if a == "" {
      assert a + [c] == [c] && b + [d] == [d];
    } else {
      assert (a + [c])[1..] == a[1..] + [c] && (b + [d])[1..] == b[1..] + [d];
      LessSnoc(a[1..], b[1..], c, d);
      assert a == [a[0]] + a[1..] && b == [b[0]] + b[1..];
    }
  }

  /** Among fixed-width numerals the byte order is the numeric order. */
  lemma {:induction false} FixedOrder(m: nat, n: nat, width: nat)
    requires m < Pow10(width) && n < Pow10(width)
    ensures Less(Fixed(m, width), Fixed(n, width)) <==> m < n
    ensures Fixed(m, width) == Fixed(n, width) <==> m == n
  {
    if width > 0 {
      FixedOrder(m / 10, n / 10, width - 1);
      LessSnoc(Fixed(m / 10, width - 1), Fixed(n / 10, width - 1), Digit(m % 10), Digit(n % 10));
      var x, y := Fixed(m, width), Fixed(n, width);
      assert x[..width - 1] == Fixed(m / 10, width - 1) && y[..width - 1] == Fixed(n / 10, width - 1);
      assert x[width - 1] == Digit(m % 10) && y[width - 1] == Digit(n % 10);
    }
  }

  lemma {:induction false} FixedIsPadded(n: nat, width: nat)
    requires 0 < width && n < Pow10(width)
    ensures |Decimal(n)| <= width && Fixed(n, width) == Zeros(width - |Decimal(n)|) + Decimal(n)
  {
    if n < 10 {
      FixedZeros(width - 1);
    } else {
      FixedIsPadded(n / 10, width - 1);
    }
  }

  lemma {:induction false} FixedZeros(width: nat)
    ensures Fixed(0, width) == Zeros(width)
  {
    if width > 0 {
      FixedZeros(width - 1);
      assert Zeros(width) == Zeros(width - 1) + ['0'];
    }
  }

  lemma TwentyDigitsHoldU64()
    ensures U64_MAX < Pow10(20)
  {
    assert Pow10(10) == 10_000_000_000;
    assert Pow10(20) == 100_000_000_000_000_000_000;
  }

  lemma RevisionKeyIsFixed(n: nat)
    requires n <= U64_MAX
    ensures n < Pow10(20) && RevisionKey(n) == Fixed(n, 20)
  {
    TwentyDigitsHoldU64();
    FixedIsPadded(n, 20);
    if |Decimal(n)| == 20 { assert Zeros(0) + Decimal(n) == Decimal(n); }
  }

  /** For every 64-bit revision the sort order of keys is the order of revisions. */
  lemma RevisionKeyOrder(m: nat, n: nat)
    requires m <= U64_MAX && n <= U64_MAX
    ensures Less(RevisionKey(m), RevisionKey(n)) <==> m < n
    ensures RevisionKey(m) == RevisionKey(n) <==> m == n
  {
    RevisionKeyIsFixed(m);
    RevisionKeyIsFixed(n);
    FixedOrder(m, n, 20);
  }

  lemma {:induction false} NumberOfFixed(n: nat, width: nat)
    requires n < Pow10(width)
    ensures AllDigits(Fixed(n, width)) && Number(Fixed(n, width)) == n
  {
    if width > 0 {
      NumberOfFixed(n / 10, width - 1);
      var s := Fixed(n, width);
      assert s[..width - 1] == Fixed(n / 10, width - 1) && s[width - 1] == Digit(n % 10);
    }
  }

  /** A revision key has exactly twenty digits and reads back as its revision. */
  lemma RevisionKeyReadsBack(n: nat)
    requires n <= U64_MAX
    ensures |RevisionKey(n)| == 20 && AllDigits(RevisionKey(n)) && Number(RevisionKey(n)) == n
  {
    RevisionKeyIsFixed(n);
    NumberOfFixed(n, 20);
  }
}
