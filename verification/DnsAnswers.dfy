/** The answer section: query_txt and query_caa after a datagram arrived, proved to invert
    the encoding of any list of resource records behind any echo of the question. */
module DnsAnswers {
  import opened Text
  import opened Dns

  // What the readers use of a resource record.
  datatype Rr = Rr(typ: nat, data: Bytes)

  datatype CaaRecord = CaaRecord(critical: bool, tag: Bytes, value: Bytes)

  datatype Lookup = Records(recs: seq<CaaRecord>) | Empty | Failed

  // ---- reading ---------------------------------------------------------------

  function ReadRr(s: Bytes): (r: Option<(Rr, nat)>)
    ensures r.Some? ==> 1 <= r.value.1 <= |s|
  {
    match NameLength(s)
    case None => None
    case Some(n) =>
      if |s| < n + 10 then None
      else
        var typ, len := U16(s[n], s[n + 1]), U16(s[n + 8], s[n + 9]);
        if |s| < n + 10 + len then None else Some((Rr(typ, s[n + 10..n + 10 + len]), n + 10 + len))
  }

  // Up to n records, and whether all n were there.
  function ReadRrs(s: Bytes, n: nat): (seq<Rr>, bool)
  {
    if n == 0 then ([], true)
    else
      match ReadRr(s)
      case None => ([], false)
      case Some((r, k)) => var (rs, ok) := ReadRrs(s[k..], n - 1); ([r] + rs, ok)
  }

  // What follows n questions; None when one is malformed.
  function AfterQuestions(s: Bytes, n: nat): Option<Bytes>
    decreases n
  {
    if n == 0 then Some(s)
    else
      match NameLength(s)
      case None => None
      case Some(k) => AfterQuestions(From(s, k + 4), n - 1)
  }

  // The character-strings of a TXT record, concatenated; reading stops at one that overruns.
  function TxtData(d: Bytes): Bytes
  {
    if d == [] || 1 + d[0] > |d| then [] else d[1..1 + d[0]] + TxtData(d[1 + d[0]..])
  }

  function TxtOf(rs: seq<Rr>): seq<Bytes>
  {
    if rs == [] then []
    else (if rs[0].typ == 16 then [TxtData(rs[0].data)] else []) + TxtOf(rs[1..])
  }

  // A CAA record needs two octets and a tag that fits; any other is dropped.
  function CaaData(d: Bytes): Option<CaaRecord>
  {
    if |d| < 2 || 2 + d[1] > |d| then None
    else Some(CaaRecord(d[0] >= 0x80, LowerBytes(d[2..2 + d[1]]), d[2 + d[1]..]))
  }

  function CaaOf(rs: seq<Rr>): seq<CaaRecord>
  {
    if rs == [] then []
    else
      var c := if rs[0].typ == 257 then CaaData(rs[0].data) else None;
      (if c.Some? then [c.value] else []) + CaaOf(rs[1..])
  }

  function Answered(recs: seq<CaaRecord>): Lookup
  {
    if recs == [] then Empty else Records(recs)
  }

  predicate Truncation(flags: byte) { flags / 2 % 2 == 1 }

  // The outcome a reply has for a CAA query.
  ghost function CaaAnswer(reply: Bytes, q: Bytes, id: (byte, byte)): Lookup
  {
    if |reply| < 12 || !IsOurs(reply, q, id) then Failed
    else if reply[3] % 16 == 3 then Empty
    else if reply[3] % 16 != 0 then Failed
    else if Truncation(reply[2]) then Failed
    else
      match AfterQuestions(reply[12..], U16(reply[4], reply[5]))
      case None => Failed
      case Some(s) =>
        var (rs, ok) := ReadRrs(s, U16(reply[6], reply[7]));
        if ok then Answered(CaaOf(rs)) else Failed
  }

  ghost function TxtAnswer(reply: Bytes, q: Bytes, id: (byte, byte)): seq<Bytes>
  {
    if |reply| < 12 || !IsOurs(reply, q, id) then []
    else
      match AfterQuestions(reply[12..], U16(reply[4], reply[5]))
      case None => []
      case Some(s) => TxtOf(ReadRrs(s, U16(reply[6], reply[7])).0)
  }

  // ---- the wire form of a reply ----------------------------------------------

  datatype Record = Record(owner: Owner, typ: nat, classAndTtl: Bytes, data: Bytes)

  ghost predicate WfRecord(r: Record)
  {
    WfOwner(r.owner) && r.typ < 65536 && |r.classAndTtl| == 6 && |r.data| < 65536
  }

  function Two(n: nat): (s: Bytes)
    requires n < 65536
    ensures |s| == 2 && U16(s[0], s[1]) == n
  {
    [n / 256, n % 256]
  }

  ghost function Fixed(r: Record): (s: Bytes)
    requires WfRecord(r)
    ensures |s| == 10 && U16(s[0], s[1]) == r.typ && U16(s[8], s[9]) == |r.data|
  {
    Two(r.typ) + r.classAndTtl + Two(|r.data|)
  }

  ghost function EncodeRecord(r: Record): Bytes
    requires WfRecord(r)
  {
    EncodeOwner(r.owner) + Fixed(r) + r.data
  }

  ghost function EncodeRecords(rs: seq<Record>): Bytes
    requires forall r | r in rs :: WfRecord(r)
  {
    if rs == [] then [] else EncodeRecord(rs[0]) + EncodeRecords(rs[1..])
  }

  function Payloads(rs: seq<Record>): (ps: seq<Rr>)
    ensures |ps| == |rs|
  {
    if rs == [] then [] else [Rr(rs[0].typ, rs[0].data)] + Payloads(rs[1..])
  }

  // ---- records round trip ----------------------------------------------------

  lemma RecordRead(r: Record, rest: Bytes)
    requires WfRecord(r)
    ensures ReadRr(EncodeRecord(r) + rest) == Some((Rr(r.typ, r.data), |EncodeRecord(r)|))
  {
    hide NameLength, EncodeOwner, Fixed;
    var o, f := EncodeOwner(r.owner), Fixed(r);
    var s := EncodeRecord(r) + rest;
    assert s == o + (f + r.data + rest);
    OwnerSkipped(r.owner, f + r.data + rest);
    var n := |o|;
    assert s[n] == f[0] && s[n + 1] == f[1] && s[n + 8] == f[8] && s[n + 9] == f[9];
    assert s[n + 10..n + 10 + |r.data|] == r.data;
  }

  lemma RecordSound(s: Bytes) returns (r: Record)
    requires ReadRr(s).Some?
    ensures WfRecord(r) && EncodeRecord(r) == s[..ReadRr(s).value.1]
    ensures ReadRr(s).value.0 == Rr(r.typ, r.data)
  {
    hide NameLength, EncodeOwner, Fixed;
    var n := NameLength(s).value;
    var o := SkippedIsOwner(s);
    var rr, k := ReadRr(s).value.0, ReadRr(s).value.1;
    r := Record(o, rr.typ, s[n + 2..n + 8], rr.data);
    TenBytes(s, n);
    FixedFound(r, s[n..n + 10]);
    ThreeParts(s, n, k);
  }

  lemma TenBytes(s: Bytes, n: nat)
    requires n + 10 <= |s|
    ensures var f := s[n..n + 10];
            && f[0] == s[n] && f[1] == s[n + 1] && f[8] == s[n + 8] && f[9] == s[n + 9]
            && f[2..8] == s[n + 2..n + 8]
  {
    var f := s[n..n + 10];
    assert forall i | 0 <= i < 6 :: f[2..8][i] == s[n + 2..n + 8][i];
  }

  lemma ThreeParts(s: Bytes, n: nat, k: nat)
    requires n + 10 <= k <= |s|
    ensures s[..k] == s[..n] + s[n..n + 10] + s[n + 10..k]
  {
  }

  lemma FixedFound(r: Record, f: Bytes)
    requires WfRecord(r) && |f| == 10
    requires U16(f[0], f[1]) == r.typ && f[2..8] == r.classAndTtl && U16(f[8], f[9]) == |r.data|
    ensures Fixed(r) == f
  {
    hide U16;
    TwoFound(f[0], f[1]);
    TwoFound(f[8], f[9]);
    Reassemble(f);
  }

  lemma TwoFound(hi: byte, lo: byte)
    ensures U16(hi, lo) < 65536 && Two(U16(hi, lo)) == [hi, lo]
  {
  }

  lemma Reassemble(f: Bytes)
    requires |f| == 10
    ensures [f[0], f[1]] + f[2..8] + [f[8], f[9]] == f
  {
  }

  lemma {:induction false} RecordsRead(rs: seq<Record>, rest: Bytes)
    requires forall r | r in rs :: WfRecord(r)
    ensures ReadRrs(EncodeRecords(rs) + rest, |rs|) == (Payloads(rs), true)
  {
    hide ReadRr, EncodeRecord, WfRecord;
    if rs != [] {
      var more := EncodeRecords(rs[1..]) + rest;
      assert EncodeRecords(rs) + rest == EncodeRecord(rs[0]) + more;
      RecordRead(rs[0], more);
      assert (EncodeRecord(rs[0]) + more)[|EncodeRecord(rs[0])|..] == more;
      RecordsRead(rs[1..], rest);
    }
  }

  lemma {:induction false} RecordsSound(s: Bytes, n: nat) returns (rs: seq<Record>, rest: Bytes)
    requires ReadRrs(s, n).1
    ensures |rs| == n && (forall r | r in rs :: WfRecord(r))
    ensures s == EncodeRecords(rs) + rest && ReadRrs(s, n).0 == Payloads(rs)
  {
    hide ReadRr, EncodeRecord, WfRecord;
    if n == 0 {
      rs, rest := [], s;
    } else {
      var k := ReadRr(s).value.1;
      var r := RecordSound(s);
      var others;
      others, rest := RecordsSound(s[k..], n - 1);
      rs := [r] + others;
      assert rs[1..] == others;
      assert s == s[..k] + s[k..];
    }
  }

  // ---- record data round trips -----------------------------------------------

  ghost function EncodeTxt(ss: seq<Bytes>): Bytes
    requires forall x | x in ss :: |x| < 256
  {
    if ss == [] then [] else Label(ss[0], EncodeTxt(ss[1..]))
  }

  ghost function Concat(ss: seq<Bytes>): Bytes
  {
    if ss == [] then [] else ss[0] + Concat(ss[1..])
  }

  lemma {:induction false} TxtRead(ss: seq<Bytes>)
    requires forall x | x in ss :: |x| < 256
    ensures TxtData(EncodeTxt(ss)) == Concat(ss)
  {
    hide Label;
    if ss != [] {
      TxtRead(ss[1..]);
      var d := EncodeTxt(ss);
      assert d[1..1 + d[0]] == ss[0] && d[1 + d[0]..] == EncodeTxt(ss[1..]);
    }
  }

  ghost function EncodeCaa(flags: byte, tag: Bytes, value: Bytes): Bytes
    requires |tag| < 256
  {
    [flags] + Label(tag, value)
  }

  // A CAA record is understood exactly when it is flags, a counted tag and a value.
  lemma CaaRead(d: Bytes)
    ensures forall flags, tag, value | |tag| < 256 && d == EncodeCaa(flags, tag, value) ::
              CaaData(d) == Some(CaaRecord(flags >= 0x80, LowerBytes(tag), value))
    ensures CaaData(d).Some? ==> exists flags, tag, value :: |tag| < 256 && d == EncodeCaa(flags, tag, value)
  {
    forall flags, tag: Bytes, value | |tag| < 256 && d == EncodeCaa(flags, tag, value)
      ensures CaaData(d) == Some(CaaRecord(flags >= 0x80, LowerBytes(tag), value))
    {
      hide Label;
      assert d[1..] == Label(tag, value);
      assert d[1] == |tag| && d[2..2 + |tag|] == d[1..][1..1 + |tag|] && d[2 + |tag|..] == d[1..][1 + |tag|..];
    }
    if CaaData(d).Some? {
      assert d == EncodeCaa(d[0], d[2..2 + d[1]], d[2 + d[1]..]);
    }
  }

  // ---- whole replies ---------------------------------------------------------

  // A reply: 12 header octets with one question and the record count, an echo of the
  // question, the records, and whatever other sections follow.
  ghost predicate ReplyIs(reply: Bytes, echo: Bytes, rs: seq<Record>, rest: Bytes)
    requires forall r | r in rs :: WfRecord(r)
  {
    && |reply| >= 12 && U16(reply[4], reply[5]) == 1 && U16(reply[6], reply[7]) == |rs|
    && reply[12..] == echo + (EncodeRecords(rs) + rest)
  }

  // The records of an accepted reply start right after the echoed question.
  lemma AnswersFollowQuestion(reply: Bytes, id: (byte, byte), name: Bytes, qtype: nat)
    requires qtype == 16 || qtype == 257
    requires IsOurs(reply, Query(id, name, qtype), id)
    ensures AfterQuestions(reply[12..], 1) == Some(reply[|Query(id, name, qtype)|..])
  {
    hide *;
    var n := QueryLength(reply, id, name, qtype);
    var ms := AcceptedAnswersQuestion(reply, id, name, qtype);
    OneQuestion(reply[12..], n - 16);
    FromFrom(reply, 12, n - 12);
    FromFrom(reply, n, 0);
  }

  lemma OneQuestion(s: Bytes, k: nat)
    requires NameLength(s) == Some(k)
    ensures AfterQuestions(s, 1) == Some(From(s, k + 4))
  {
  }

  lemma QueryLength(reply: Bytes, id: (byte, byte), name: Bytes, qtype: nat) returns (n: nat)
    requires qtype < 65536 && IsOurs(reply, Query(id, name, qtype), id)
    ensures n == |Query(id, name, qtype)| && 16 <= n <= |reply|
  {
    n := |Query(id, name, qtype)|;
  }

  // The CAA reader returns exactly the understood CAA records, in order, from any records
  // behind any echo of the question; other types are skipped.
  lemma CaaRoundTrip(reply: Bytes, id: (byte, byte), name: Bytes, echo: Bytes, rs: seq<Record>, rest: Bytes)
    requires IsOurs(reply, Query(id, name, 257), id)
    requires (forall r | r in rs :: WfRecord(r)) && ReplyIs(reply, echo, rs, rest)
    requires |echo| == |Question(name, 257)|
    ensures CaaAnswer(reply, Query(id, name, 257), id) ==
            if reply[3] % 16 == 3 then Empty
            else if reply[3] % 16 != 0 || Truncation(reply[2]) then Failed
            else Answered(CaaOf(Payloads(rs)))
  {
    hide ReadRrs, Question, EncodeRecords;
    AnswersFollowQuestion(reply, id, name, 257);
    RecordsBehind(reply, id, name, 257, echo, rs, rest);
    RecordsRead(rs, rest);
  }

  // Likewise for TXT, where the response code is not looked at.
  lemma TxtRoundTrip(reply: Bytes, id: (byte, byte), name: Bytes, echo: Bytes, rs: seq<Record>, rest: Bytes)
    requires IsOurs(reply, Query(id, name, 16), id)
    requires (forall r | r in rs :: WfRecord(r)) && ReplyIs(reply, echo, rs, rest)
    requires |echo| == |Question(name, 16)|
    ensures TxtAnswer(reply, Query(id, name, 16), id) == TxtOf(Payloads(rs))
  {
    hide ReadRrs, Question, EncodeRecords;
    AnswersFollowQuestion(reply, id, name, 16);
    RecordsBehind(reply, id, name, 16, echo, rs, rest);
    RecordsRead(rs, rest);
  }

  lemma RecordsBehind(reply: Bytes, id: (byte, byte), name: Bytes, qtype: nat, echo: Bytes, rs: seq<Record>,
                      rest: Bytes)
    requires qtype < 65536 && |reply| >= |Query(id, name, qtype)|
    requires (forall r | r in rs :: WfRecord(r)) && ReplyIs(reply, echo, rs, rest)
    requires |echo| == |Question(name, qtype)|
    ensures reply[|Query(id, name, qtype)|..] == EncodeRecords(rs) + rest
  {
  }

  // Nothing else is ever reported: a reply that yields records, or a clean "none here" with
  // no error code, is our question followed by that many well-formed records.
  lemma CaaSound(reply: Bytes, id: (byte, byte), name: Bytes) returns (echo: Bytes, rs: seq<Record>, rest: Bytes)
    requires !CaaAnswer(reply, Query(id, name, 257), id).Failed? && |reply| >= 12 && reply[3] % 16 != 3
    ensures IsOurs(reply, Query(id, name, 257), id) && |echo| == |Question(name, 257)|
    ensures (forall r | r in rs :: WfRecord(r)) && ReplyIs(reply, echo, rs, rest)
    ensures CaaAnswer(reply, Query(id, name, 257), id) == Answered(CaaOf(Payloads(rs)))
  {
    hide ReadRrs, Question, EncodeRecords;
    AnswersFollowQuestion(reply, id, name, 257);
    var n := |Query(id, name, 257)|;
    rs, rest := RecordsSound(reply[n..], U16(reply[6], reply[7]));
    echo := reply[12..n];
    assert reply[12..] == echo + reply[n..];
  }

  // ---- the readers -----------------------------------------------------------

  // query_txt, from the datagram on (None when nothing came back).
  method QueryTxt(reply: Option<Bytes>, q: Bytes, id: (byte, byte)) returns (out: seq<Bytes>)
    ensures out == if reply.None? then [] else TxtAnswer(reply.value, q, id)
  {
    hide ReadRrs, AfterQuestions, IsOurs, TxtOf;
    if reply.None? || |reply.value| < 12 { return []; }
    var buf := reply.value;
    var ours := ReplyIsOurs(buf, q, id);
    if !ours { return []; }
    var qd, an := U16(buf[4], buf[5]), U16(buf[6], buf[7]);
    var ok, pos := SkipQuestions(buf, qd);
    if !ok { return []; }
    out := ReadTxtRecords(buf, pos, an);
  }

  // query_caa, from the datagram on.
  method QueryCaa(reply: Option<Bytes>, q: Bytes, id: (byte, byte)) returns (a: Lookup)
    ensures a == if reply.None? then Failed else CaaAnswer(reply.value, q, id)
  {
    hide ReadRrs, AfterQuestions, IsOurs, CaaOf;
    if reply.None? || |reply.value| < 12 { return Failed; }
    var buf := reply.value;
    var ours := ReplyIsOurs(buf, q, id);
    if !ours { return Failed; }
    var rcode := buf[3] % 16;
    if rcode == 3 { return Empty; }
    if rcode != 0 { return Failed; }
    if Truncation(buf[2]) { return Failed; }
    var qd, an := U16(buf[4], buf[5]), U16(buf[6], buf[7]);
    var ok, pos := SkipQuestions(buf, qd);
    if !ok { return Failed; }
    var out;
    out, ok := ReadCaaRecords(buf, pos, an);
    if !ok { return Failed; }
    a := if out == [] then Empty else Records(out);
  }

  method ReadTxtRecords(buf: Bytes, start: nat, an: nat) returns (out: seq<Bytes>)
    ensures out == TxtOf(ReadRrs(From(buf, start), an).0)
  {
    hide ReadRrs, ReadRr, TxtOf, TxtData, From;
    out := [];
    var i, pos := 0, start;
    while i < an
      invariant 0 <= i <= an
      invariant out + TxtOf(ReadRrs(From(buf, pos), an - i).0) == TxtOf(ReadRrs(From(buf, start), an).0)
    {
      TxtStep(From(buf, pos), an - i);
      var rr, next := NextRecord(buf, pos);
      if rr.None? { return; }
      if rr.value.typ == 16 {
        var txt := ReadTxt(rr.value.data);
        out := out + [txt];
      }
      pos := next;
      i := i + 1;
    }
    TxtStep(From(buf, pos), 0);
  }

  lemma TxtStep(s: Bytes, n: nat)
    ensures n == 0 || ReadRr(s).None? ==> TxtOf(ReadRrs(s, n).0) == []
    ensures n > 0 && ReadRr(s).Some? ==>
              var (r, k) := ReadRr(s).value;
              TxtOf(ReadRrs(s, n).0) ==
                (if r.typ == 16 then [TxtData(r.data)] else []) + TxtOf(ReadRrs(s[k..], n - 1).0)
  {
  }

  method ReadCaaRecords(buf: Bytes, start: nat, an: nat) returns (out: seq<CaaRecord>, ok: bool)
    ensures ok == ReadRrs(From(buf, start), an).1
    ensures ok ==> out == CaaOf(ReadRrs(From(buf, start), an).0)
  {
    hide ReadRrs, ReadRr, CaaOf, CaaData, From;
    out := [];
    var i, pos := 0, start;
    while i < an
      invariant 0 <= i <= an
      invariant ReadRrs(From(buf, pos), an - i).1 == ReadRrs(From(buf, start), an).1
      invariant out + CaaOf(ReadRrs(From(buf, pos), an - i).0) == CaaOf(ReadRrs(From(buf, start), an).0)
    {
      CaaStep(From(buf, pos), an - i);
      var rr, next := NextRecord(buf, pos);
      if rr.None? { return out, false; }
      if rr.value.typ == 257 {
        var c := ReadCaa(rr.value.data);
        if c.Some? { out := out + [c.value]; }
      }
      pos := next;
      i := i + 1;
    }
    CaaStep(From(buf, pos), 0);
    ok := true;
  }

  lemma CaaStep(s: Bytes, n: nat)
    ensures n == 0 ==> CaaOf(ReadRrs(s, n).0) == [] && ReadRrs(s, n).1
    ensures n > 0 && ReadRr(s).None? ==> !ReadRrs(s, n).1
    ensures n > 0 && ReadRr(s).Some? ==>
              var (r, k) := ReadRr(s).value;
              var c := if r.typ == 257 then CaaData(r.data) else None;
              && ReadRrs(s, n).1 == ReadRrs(s[k..], n - 1).1
              && CaaOf(ReadRrs(s, n).0) == (if c.Some? then [c.value] else []) + CaaOf(ReadRrs(s[k..], n - 1).0)
  {
  }

  method SkipQuestions(buf: Bytes, qd: nat) returns (ok: bool, pos: nat)
    requires |buf| >= 12
    ensures var s := AfterQuestions(buf[12..], qd); ok == s.Some? && (ok ==> From(buf, pos) == s.value)
  {
    hide NameLength, From;
    pos := 12;
    var i := 0;
    FromFrom(buf, 12, 0);
    while i < qd
      invariant 0 <= i <= qd && pos >= 12
      invariant AfterQuestions(From(buf, pos), qd - i) == AfterQuestions(From(buf, 12), qd)
    {
      var k;
      ok, k := SkipName(buf, pos);
      if !ok { return; }
      FromFrom(buf, pos, k - pos + 4);
      pos := k + 4;
      i := i + 1;
    }
    ok := true;
  }

  lemma FromFrom(buf: Bytes, p: nat, k: nat)
    ensures From(From(buf, p), k) == From(buf, p + k)
    ensures p <= |buf| ==> From(buf, p) == buf[p..]
  {
  }

  // One record at pos: owner, ten fixed octets, data.
  method NextRecord(buf: Bytes, pos: nat) returns (rr: Option<Rr>, next: nat)
    ensures match ReadRr(From(buf, pos))
            case None => rr == None
            case Some((r, k)) => rr == Some(r) && From(buf, next) == From(buf, pos)[k..]
  {
    hide NameLength;
    ghost var s := From(buf, pos);
    var ok, p := SkipName(buf, pos);
    next := p;
    if !ok || p + 10 > |buf| { return None, p; }
    var typ, rdlen := U16(buf[p], buf[p + 1]), U16(buf[p + 8], buf[p + 9]);
    if p + 10 + rdlen > |buf| { return None, p; }
    next := p + 10 + rdlen;
    assert s == buf[pos..];
    SliceOf(buf, pos, p + 10, next);
    rr := Some(Rr(typ, buf[p + 10..next]));
  }

  method ReadTxt(d: Bytes) returns (txt: Bytes)
    ensures txt == TxtData(d)
  {
    txt := [];
    var rp := 0;
    while rp < |d|
      invariant 0 <= rp <= |d|
      invariant txt + TxtData(d[rp..]) == TxtData(d)
      decreases |d| - rp
    {
      var slen := d[rp];
      if rp + 1 + slen > |d| { break; }
      assert d[rp..][1..1 + slen] == d[rp + 1..rp + 1 + slen] && d[rp..][1 + slen..] == d[rp + 1 + slen..];
      txt := txt + d[rp + 1..rp + 1 + slen];
      rp := rp + 1 + slen;
    }
  }

  method ReadCaa(d: Bytes) returns (c: Option<CaaRecord>)
    ensures c == CaaData(d)
  {
    if |d| < 2 { return None; }
    var flags, taglen := d[0], d[1];
    if 2 + taglen > |d| { return None; }
    var tag, i := d[2..2 + taglen], 0;
    var lower: Bytes := [];
    while i < taglen
      invariant 0 <= i <= taglen && |lower| == i
      invariant forall k | 0 <= k < i :: lower[k] == LowerByte(tag[k])
    {
      lower := lower + [LowerByte(tag[i])];
      i := i + 1;
    }
    assert lower == LowerBytes(tag);
    c := Some(CaaRecord(flags >= 0x80, lower, d[2 + taglen..]));
  }
}
