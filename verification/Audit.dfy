/** The tamper-evident audit log: the length-prefixed canonical form, the hash chain and
    its verifying loop, and the checkpoint text that anchors the head.
    SHA-256 is the parameter `sha`; nothing is assumed about it. */
module Audit {
  import opened Text

  datatype Event = Event(ts: int, category: string, action: string, actor: string,
                         actorIp: string, target: string, status: string, detail: string)

  datatype Row = Row(seqNo: int, ev: Event, prevHash: string, hash: string)

  type Sha = string -> string

  // ---- canonical serialization -------------------------------------------

  function AppendField(out: string, v: string): string
  {
    out + Decimal(|v|) + ":" + v
  }

  function Canonical(e: Event): string
  {
    var c0 := AppendField("", Signed(e.ts));
    var c1 := AppendField(c0, e.category);
    var c2 := AppendField(c1, e.action);
    var c3 := AppendField(c2, e.actor);
    var c4 := AppendField(c3, e.actorIp);
    var c5 := AppendField(c4, e.target);
    var c6 := AppendField(c5, e.status);
    AppendField(c6, e.detail)
  }

  // One field in front of whatever follows it.
  ghost function Field(v: string, rest: string): string
  {
    Decimal(|v|) + [':'] + (v + rest)
  }

  lemma AppendThen(out: string, v: string, rest: string)
    ensures AppendField(out, v) + rest == out + Field(v, rest)
  {
  }

  // The same bytes read from the left: every field in front of the rest of the input.
  ghost function Nested(e: Event, rest: string): string
  {
    Field(Signed(e.ts), Field(e.category, Field(e.action, Field(e.actor,
      Field(e.actorIp, Field(e.target, Field(e.status, Field(e.detail, rest))))))))
  }

  lemma CanonicalIsNested(e: Event, rest: string)
    ensures Canonical(e) + rest == Nested(e, rest)
  {
    hide AppendField, Field, Signed;
    var c0 := AppendField("", Signed(e.ts));
    var c1 := AppendField(c0, e.category);
    var c2 := AppendField(c1, e.action);
    var c3 := AppendField(c2, e.actor);
    var c4 := AppendField(c3, e.actorIp);
    var c5 := AppendField(c4, e.target);
    var c6 := AppendField(c5, e.status);
    AppendThen(c6, e.detail, rest);
    var r7 := Field(e.detail, rest);
    AppendThen(c5, e.status, r7);
    var r6 := Field(e.status, r7);
    AppendThen(c4, e.target, r6);
    var r5 := Field(e.target, r6);
    AppendThen(c3, e.actorIp, r5);
    var r4 := Field(e.actorIp, r5);
    AppendThen(c2, e.actor, r4);
    var r3 := Field(e.actor, r4);
    AppendThen(c1, e.action, r3);
    var r2 := Field(e.action, r3);
    AppendThen(c0, e.category, r2);
    var r1 := Field(e.category, r2);
    AppendThen("", Signed(e.ts), r1);
    assert "" + Field(Signed(e.ts), r1) == Field(Signed(e.ts), r1);
  }

  // ---- reading the canonical form back --------------------------------------

  // One length-prefixed field off the front.
  ghost function TakeField(s: string): Option<(string, string)>
  {
    var colon := ColonAt(s);
    if colon == |s| || colon == 0 || !AllDigits(s[..colon]) || |s| - colon - 1 < Value(s[..colon]) then None
    else
      var from, len := colon + 1, Value(s[..colon]);
      Some((s[from..from + len], s[from + len..]))
  }

  ghost function ColonAt(s: string): (i: nat)
    ensures i <= |s| && (i < |s| ==> s[i] == ':') && forall k | 0 <= k < i :: s[k] != ':'
  {
    if s == "" || s[0] == ':' then 0 else 1 + ColonAt(s[1..])
  }

  // The first n fields and what follows them.
  ghost function ReadFields(s: string, n: nat): Option<(seq<string>, string)>
  {
    if n == 0 then Some(([], s))
    else
      match TakeField(s)
      case None => None
      case Some((v, rest)) =>
        match ReadFields(rest, n - 1)
        case None => None
        case Some((vs, end)) => Some(([v] + vs, end))
  }

  lemma FieldRead(v: string, rest: string)
    ensures TakeField(Field(v, rest)) == Some((v, rest))
  {
    hide ColonAt, Decimal, Value;
    var d, s := Decimal(|v|), Field(v, rest);
    DecimalRoundTrip(|v|);
    assert s[|d|] == ':' && s[..|d|] == d;
    assert forall k | 0 <= k < |d| :: s[k] == d[k] && d[k] in d;
    assert ColonAt(s) == |d|;
    assert s[|d| + 1..] == v + rest;
    assert s[|d| + 1..|d| + 1 + |v|] == v && s[|d| + 1 + |v|..] == rest;
  }

  ghost function AllFields(vs: seq<string>, rest: string): string
  {
    if vs == [] then rest else Field(vs[0], AllFields(vs[1..], rest))
  }

  lemma {:induction false} FieldsRead(vs: seq<string>, rest: string)
    ensures ReadFields(AllFields(vs, rest), |vs|) == Some((vs, rest))
  {
    hide TakeField, Field;
    if vs != [] {
      FieldRead(vs[0], AllFields(vs[1..], rest));
      FieldsRead(vs[1..], rest);
      assert vs == [vs[0]] + vs[1..];
    }
  }

  // The order of the fields is part of the contract: read back, they are these eight, and the
  // previous hash is what is left.
  lemma CanonicalReadBack(e: Event, prev: string)
    ensures ReadFields(Canonical(e) + prev, 8) ==
            Some(([Signed(e.ts), e.category, e.action, e.actor, e.actorIp, e.target, e.status, e.detail], prev))
  {
    hide Canonical, ReadFields, Field, Signed;
    var vs := [Signed(e.ts), e.category, e.action, e.actor, e.actorIp, e.target, e.status, e.detail];
    CanonicalIsNested(e, prev);
    EightFields(vs, prev);
    FieldsRead(vs, prev);
  }

  // What is hashed determines both the event and the previous hash, whatever their contents.
  lemma HashInputInjective(e: Event, p: string, f: Event, q: string)
    requires Canonical(e) + p == Canonical(f) + q
    ensures e == f && p == q
  {
    hide Canonical, ReadFields, Signed;
    CanonicalReadBack(e, p);
    CanonicalReadBack(f, q);
    var vs, end := ReadFields(Canonical(e) + p, 8).value.0, ReadFields(Canonical(e) + p, 8).value.1;
    assert vs[0] == Signed(e.ts) == Signed(f.ts) && end == p == q;
    assert vs[1] == e.category == f.category && vs[2] == e.action == f.action && vs[3] == e.actor == f.actor;
    assert vs[4] == e.actorIp == f.actorIp && vs[5] == e.target == f.target && vs[6] == e.status == f.status;
    assert vs[7] == e.detail == f.detail;
    SignedInjective(e.ts, f.ts);
  }

  lemma EightFields(vs: seq<string>, rest: string)
    requires |vs| == 8
    ensures AllFields(vs, rest) ==
            Field(vs[0], Field(vs[1], Field(vs[2], Field(vs[3],
              Field(vs[4], Field(vs[5], Field(vs[6], Field(vs[7], rest))))))))
  {
    hide Field;
    assert AllFields(vs[8..], rest) == rest;
    assert AllFields(vs[7..], rest) == Field(vs[7], AllFields(vs[8..], rest)) by { assert vs[7..][1..] == vs[8..]; }
    assert AllFields(vs[6..], rest) == Field(vs[6], AllFields(vs[7..], rest)) by { assert vs[6..][1..] == vs[7..]; }
    assert AllFields(vs[5..], rest) == Field(vs[5], AllFields(vs[6..], rest)) by { assert vs[5..][1..] == vs[6..]; }
    assert AllFields(vs[4..], rest) == Field(vs[4], AllFields(vs[5..], rest)) by { assert vs[4..][1..] == vs[5..]; }
    assert AllFields(vs[3..], rest) == Field(vs[3], AllFields(vs[4..], rest)) by { assert vs[3..][1..] == vs[4..]; }
    assert AllFields(vs[2..], rest) == Field(vs[2], AllFields(vs[3..], rest)) by { assert vs[2..][1..] == vs[3..]; }
    assert AllFields(vs[1..], rest) == Field(vs[1], AllFields(vs[2..], rest)) by { assert vs[1..][1..] == vs[2..]; }
  }

  // ---- the chain ----------------------------------------------------------

  // audit_genesis_hash: 64 zeros.
  function Genesis(): (g: string)
    ensures |g| == 64 && forall c | c in g :: c == '0'
  {
    seq(64, i => '0')
  }

  function EntryHash(sha: Sha, e: Event, prev: string): string
  {
    sha(Canonical(e) + prev)
  }

  ghost function Head(rows: seq<Row>): string
  {
    if rows == [] then Genesis() else rows[|rows| - 1].hash
  }

  // Row i links to what precedes it, hashes correctly, and continues the numbering.
  ghost predicate RowOk(sha: Sha, rows: seq<Row>, i: nat)
    requires i < |rows|
  {
    && rows[i].seqNo == rows[0].seqNo + i
    && rows[i].prevHash == Head(rows[..i])
    && rows[i].hash == EntryHash(sha, rows[i].ev, rows[i].prevHash)
  }

  ghost predicate Intact(sha: Sha, rows: seq<Row>)
  {
    forall i: nat | i < |rows| :: RowOk(sha, rows, i)
  }

  datatype Fault = SequenceGap(expected: int, got: int) | BrokenLink | ContentTampered
  datatype Verdict = Good(headHash: string) | Broken(seqNo: int, fault: Fault)

  // verify_audit_chain: accepts exactly the intact chains; a refusal names the first bad row.
  method VerifyAuditChain(sha: Sha, rows: seq<Row>) returns (v: Verdict, count: nat)
    ensures count == |rows|
    ensures v.Good? <==> Intact(sha, rows)
    ensures v.Good? ==> v.headHash == Head(rows)
    ensures v.Broken? ==> exists i: nat | i < |rows| ::
              && v.seqNo == rows[i].seqNo
              && Intact(sha, rows[..i]) && !RowOk(sha, rows, i)
              && (v.fault.SequenceGap? <==> rows[i].seqNo != rows[0].seqNo + i)
              && (v.fault.BrokenLink? ==> rows[i].prevHash != Head(rows[..i]))
              && (v.fault.ContentTampered? ==> rows[i].prevHash == Head(rows[..i]))
              && (v.fault.SequenceGap? ==> v.fault == SequenceGap(rows[0].seqNo + i, rows[i].seqNo))
  {
    hide Canonical;
    count := |rows|;
    var expectedPrev := Genesis();
    var expectedSeq, haveSeq := 0, false;
    for i := 0 to |rows|
      invariant expectedPrev == Head(rows[..i])
      invariant haveSeq <==> i > 0
      invariant haveSeq ==> expectedSeq == rows[0].seqNo + i
      invariant forall k: nat | k < i :: RowOk(sha, rows, k)
    {
      var row := rows[i];
      PrefixIntact(sha, rows, i);
      if !haveSeq { expectedSeq, haveSeq := row.seqNo, true; }
      assert RowOk(sha, rows, i) <==> row.seqNo == expectedSeq && row.prevHash == expectedPrev
                                      && EntryHash(sha, row.ev, row.prevHash) == row.hash;
      if row.seqNo != expectedSeq {
        return Broken(row.seqNo, SequenceGap(expectedSeq, row.seqNo)), count;
      }
      if row.prevHash != expectedPrev {
        return Broken(row.seqNo, BrokenLink), count;
      }
      if EntryHash(sha, row.ev, row.prevHash) != row.hash {
        return Broken(row.seqNo, ContentTampered), count;
      }
      expectedPrev := row.hash;
      expectedSeq := expectedSeq + 1;
      assert rows[..i + 1][|rows[..i + 1]| - 1] == row;
    }
    assert rows[..|rows|] == rows;
    v := Good(expectedPrev);
  }

  lemma PrefixIntact(sha: Sha, rows: seq<Row>, n: nat)
    requires n <= |rows| && forall k: nat | k < n :: RowOk(sha, rows, k)
    ensures Intact(sha, rows[..n])
  {
    hide Canonical;
    forall k: nat | k < n ensures RowOk(sha, rows[..n], k) {
      assert RowOk(sha, rows, k);
      assert rows[..n][..k] == rows[..k];
    }
  }

  // Cutting off the newest rows is invisible to the chain alone: that is what a checkpoint is for.
  lemma TruncationStaysIntact(sha: Sha, rows: seq<Row>, n: nat)
    requires n <= |rows| && Intact(sha, rows)
    ensures Intact(sha, rows[..n])
  {
    PrefixIntact(sha, rows, n);
  }

  // append_audit links a new row to the head. The log stays intact exactly when the database
  // hands out the next number; a number lost to a rolled-back insert reads as a deleted row.
  lemma AppendKeepsIntact(sha: Sha, rows: seq<Row>, e: Event, drawn: int)
    requires Intact(sha, rows)
    ensures var p := Head(rows);
            Intact(sha, rows + [Row(drawn, e, p, EntryHash(sha, e, p))])
            <==> (rows == [] || drawn == rows[|rows| - 1].seqNo + 1)
  {
    hide Canonical;
    var p := Head(rows);
    var longer := rows + [Row(drawn, e, p, EntryHash(sha, e, p))];
    assert longer[..|rows|] == rows;
    forall k: nat | k < |rows| ensures RowOk(sha, longer, k) {
      assert RowOk(sha, rows, k);
      assert longer[..k] == rows[..k];
    }
    if rows != [] { assert RowOk(sha, rows, |rows| - 1); }
    if Intact(sha, longer) { assert RowOk(sha, longer, |rows|); }
    if rows == [] || drawn == rows[|rows| - 1].seqNo + 1 {
      assert RowOk(sha, longer, |rows|);
    }
  }

  // ---- tamper evidence ----------------------------------------------------

  function Events(rows: seq<Row>): (es: seq<Event>)
    ensures |es| == |rows|
  {
    seq(|rows|, i requires 0 <= i < |rows| => rows[i].ev)
  }

  // The bytes hashed for row i.
  function HashInput(rows: seq<Row>, i: nat): string
    requires i < |rows|
  {
    Canonical(rows[i].ev) + rows[i].prevHash
  }

  datatype Evidence =
    | SameEvents
    | Collision(i: nat, j: nat)       // row i of one log and row j of the other hash alike
    | GenesisPreimage(i: nat)         // row i of the longer log hashes to the genesis constant

  ghost predicate Explains(sha: Sha, a: seq<Row>, b: seq<Row>, w: Evidence)
  {
    match w
    case SameEvents => Events(a) == Events(b)
    case Collision(i, j) =>
      && i < |a| && j < |b|
      && HashInput(a, i) != HashInput(b, j) && sha(HashInput(a, i)) == sha(HashInput(b, j))
    case GenesisPreimage(i) =>
      var longer := if |a| > |b| then a else b;
      i < |longer| && sha(HashInput(longer, i)) == Genesis()
  }

  // Two intact logs with one head record the same events, or a hash collision is in hand.
  lemma {:induction false} TamperEvidence(sha: Sha, a: seq<Row>, b: seq<Row>) returns (w: Evidence)
    requires Intact(sha, a) && Intact(sha, b) && Head(a) == Head(b)
    ensures Explains(sha, a, b, w)
    decreases |a|
  {
    hide Canonical;
    if a == [] || b == [] {
      w := EmptyEvidence(sha, a, b);
    } else {
      var same := LastRows(sha, a, b);
      if !same {
        w := Collision(|a| - 1, |b| - 1);
      } else {
        w := TamperEvidence(sha, a[..|a| - 1], b[..|b| - 1]);
        ExplainsLonger(sha, a, b, w);
      }
    }
  }

  lemma EmptyEvidence(sha: Sha, a: seq<Row>, b: seq<Row>) returns (w: Evidence)
    requires Intact(sha, a) && Intact(sha, b) && Head(a) == Head(b) && (a == [] || b == [])
    ensures Explains(sha, a, b, w)
  {
    hide Canonical;
    if a == b {
      w := SameEvents;
    } else {
      var longer := if |a| > |b| then a else b;
      assert RowOk(sha, longer, |longer| - 1);
      w := GenesisPreimage(|longer| - 1);
    }
  }

  // One step back along both logs: the last events agree, or their hash inputs collide.
  lemma LastRows(sha: Sha, a: seq<Row>, b: seq<Row>) returns (same: bool)
    requires Intact(sha, a) && Intact(sha, b) && Head(a) == Head(b) && a != [] && b != []
    ensures !same ==> Explains(sha, a, b, Collision(|a| - 1, |b| - 1))
    ensures same ==> a[|a| - 1].ev == b[|b| - 1].ev
    ensures same ==> Intact(sha, a[..|a| - 1]) && Intact(sha, b[..|b| - 1])
    ensures same ==> Head(a[..|a| - 1]) == Head(b[..|b| - 1])
  {
    hide Canonical;
    var m, n := |a| - 1, |b| - 1;
    assert RowOk(sha, a, m) && RowOk(sha, b, n);
    same := HashInput(a, m) == HashInput(b, n);
    if same {
      PrefixIntact(sha, a, m);
      PrefixIntact(sha, b, n);
      HashInputInjective(a[m].ev, a[m].prevHash, b[n].ev, b[n].prevHash);
    }
  }

  lemma ExplainsLonger(sha: Sha, a: seq<Row>, b: seq<Row>, w: Evidence)
    requires a != [] && b != [] && a[|a| - 1].ev == b[|b| - 1].ev
    requires Explains(sha, a[..|a| - 1], b[..|b| - 1], w)
    ensures Explains(sha, a, b, w)
  {
    hide Canonical;
    var m, n := |a| - 1, |b| - 1;
    match w
    case SameEvents =>
      assert Events(a) == Events(a[..m]) + [a[m].ev];
      assert Events(b) == Events(b[..n]) + [b[n].ev];
    case Collision(i, j) =>
      assert HashInput(a[..m], i) == HashInput(a, i) && HashInput(b[..n], j) == HashInput(b, j);
    case GenesisPreimage(i) =>
      if m > n { assert HashInput(a[..m], i) == HashInput(a, i); }
      else { assert HashInput(b[..n], i) == HashInput(b, i); }
  }

  // ---- checkpoints --------------------------------------------------------

  function CheckpointMessage(headSeq: int, headHash: string): string
  {
    Signed(headSeq) + ":" + headHash
  }

  lemma CheckpointInjective(m: int, g: string, n: int, h: string)
    requires CheckpointMessage(m, g) == CheckpointMessage(n, h)
    ensures m == n && g == h
  {
    SignedHasNo(m, ':');
    SignedHasNo(n, ':');
    SplitUnique(Signed(m), Signed(n), ':', g, h);
    SignedInjective(m, n);
  }

  // The number is what stands before the first colon, the hash all that follows it.
  lemma CheckpointReadBack(n: int, h: string)
    ensures var m := CheckpointMessage(n, h);
            var colon := ColonAt(m);
            colon < |m| && m[..colon] == Signed(n) && m[colon + 1..] == h
  {
    hide ColonAt, Signed;
    SignedHasNo(n, ':');
    var m, k := CheckpointMessage(n, h), |Signed(n)|;
    assert m[..k] == Signed(n) && m[k] == ':' && m[k + 1..] == h;
    assert forall j | 0 <= j < k :: m[j] == Signed(n)[j] && m[j] in Signed(n);
  }

  // Two non-empty intact logs that satisfy one signed checkpoint are the same log, row for
  // row and number for number, unless they exhibit a collision.
  lemma CheckpointPinsLog(sha: Sha, a: seq<Row>, b: seq<Row>) returns (w: Evidence)
    requires Intact(sha, a) && Intact(sha, b) && a != [] && b != []
    requires CheckpointMessage(a[|a| - 1].seqNo, Head(a)) == CheckpointMessage(b[|b| - 1].seqNo, Head(b))
    ensures Explains(sha, a, b, w)
    ensures w.SameEvents? ==> a == b
  {
    hide Canonical;
    CheckpointInjective(a[|a| - 1].seqNo, Head(a), b[|b| - 1].seqNo, Head(b));
    w := TamperEvidence(sha, a, b);
    if w.SameEvents? {
      assert |Events(a)| == |a| && |Events(b)| == |b|;
      assert RowOk(sha, a, |a| - 1) && RowOk(sha, b, |b| - 1);
      SameEventsSameRows(sha, a, b, |a|);
      assert a[..|a|] == a && b[..|b|] == b;
    }
  }

  lemma {:induction false} SameEventsSameRows(sha: Sha, a: seq<Row>, b: seq<Row>, n: nat)
    requires Intact(sha, a) && Intact(sha, b) && Events(a) == Events(b)
    requires |a| == |b| && n <= |a| && (a != [] ==> a[0].seqNo == b[0].seqNo)
    ensures a[..n] == b[..n]
  {
    hide Canonical;
    if n > 0 {
      SameEventsSameRows(sha, a, b, n - 1);
      assert RowOk(sha, a, n - 1) && RowOk(sha, b, n - 1);
      assert Events(a)[n - 1] == Events(b)[n - 1];
      assert a[..n] == a[..n - 1] + [a[n - 1]] && b[..n] == b[..n - 1] + [b[n - 1]];
    }
  }

  // ---- hexadecimal signatures ---------------------------------------------

  method ToHex(d: seq<byte>) returns (s: string)
    ensures s == Hex(d)
  {
    s := "";
    for i := 0 to |d|
      invariant s == Hex(d[..i])
    {
      assert d[..i + 1] == d[..i] + [d[i]];
      HexSnoc(d[..i], d[i]);
      s := s + [HexDigit(d[i] / 16), HexDigit(d[i] % 16)];
    }
    assert d[..|d|] == d;
  }

  lemma {:induction false} HexSnoc(d: seq<byte>, b: byte)
    ensures Hex(d + [b]) == Hex(d) + [HexDigit(b / 16), HexDigit(b % 16)]
  {
    if d != [] {
      assert (d + [b])[1..] == d[1..] + [b];
      HexSnoc(d[1..], b);
    }
  }

  ghost predicate AllHex(s: string)
  {
    forall i | 0 <= i < |s| :: HexValue(s[i]) >= 0
  }

  // from_hex: decodes whole pairs of either case, drops an odd last character, and answers
  // the empty string for anything that is not hexadecimal.
  method FromHex(s: string) returns (out: seq<byte>)
    ensures AllHex(s[..|s| - |s| % 2]) ==> Decodes(s, out, |s| / 2)
    ensures !AllHex(s[..|s| - |s| % 2]) ==> out == []
  {
    out := [];
    var i := 0;
    while i + 1 < |s|
      invariant 0 <= i <= |s| && i % 2 == 0 && Decodes(s, out, i / 2)
    {
      var hi, lo := HexValue(s[i]), HexValue(s[i + 1]);
      if hi < 0 || lo < 0 {
        var bad := if hi < 0 then i else i + 1;
        assert s[..|s| - |s| % 2][bad] == s[bad];
        return [];
      }
      out := out + [16 * hi + lo];
      i := i + 2;
    }
    DecodedIsHex(s, out, |s| / 2);
  }

  lemma DecodedIsHex(s: string, out: seq<byte>, n: nat)
    requires Decodes(s, out, n)
    ensures AllHex(s[..2 * n])
  {
    forall i | 0 <= i < 2 * n ensures HexValue(s[i]) >= 0 {
      var k := i / 2;
      assert PairValue(s[2 * k], s[2 * k + 1], out[k]);
      assert i == 2 * k || i == 2 * k + 1;
    }
  }

  // `out` is the value of the first n pairs of s.
  ghost predicate Decodes(s: string, out: seq<byte>, n: nat)
  {
    && |out| == n && 2 * n <= |s|
    && forall k | 0 <= k < n :: PairValue(s[2 * k], s[2 * k + 1], out[k])
  }

  ghost predicate PairValue(hi: char, lo: char, b: byte)
  {
    HexValue(hi) >= 0 && HexValue(lo) >= 0 && b == 16 * HexValue(hi) + HexValue(lo)
  }

  // Decoding inverts encoding.
  lemma HexRoundTrip(d: seq<byte>, out: seq<byte>)
    ensures AllHex(Hex(d)) && |Hex(d)| % 2 == 0
    ensures Decodes(Hex(d), out, |Hex(d)| / 2) <==> out == d
  {
    HexIsHex(d);
    var h := Hex(d);
    if Decodes(h, out, |d|) {
      forall k | 0 <= k < |d| ensures out[k] == d[k] {
        HexAt(d, k);
        assert PairValue(h[2 * k], h[2 * k + 1], out[k]);
      }
    }
    forall k | 0 <= k < |d| ensures PairValue(h[2 * k], h[2 * k + 1], d[k]) {
      HexAt(d, k);
    }
  }

  lemma {:induction false} HexAt(d: seq<byte>, k: nat)
    requires k < |d|
    ensures |Hex(d)| == 2 * |d|
    ensures Hex(d)[2 * k] == HexDigit(d[k] / 16) && Hex(d)[2 * k + 1] == HexDigit(d[k] % 16)
  {
    if |d| > 1 {
      var rest := Hex(d[1..]);
      HexAt(d[1..], if k == 0 then 0 else k - 1);
      assert Hex(d)[2..] == rest;
      if k > 0 { assert Hex(d)[2 * k] == rest[2 * k - 2] && Hex(d)[2 * k + 1] == rest[2 * k - 1]; }
    }
  }

  lemma HexIsHex(d: seq<byte>)
    ensures AllHex(Hex(d)) && |Hex(d)| == 2 * |d|
  {
  }
}
