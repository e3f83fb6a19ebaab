/** What the DNS reader accepts and reports, said of the octets alone: ASCII case, the
    header of a reply, and which records of which type are picked out of it. */
module DnsRules {
  import opened Text
  import opened Dns
  import opened DnsAnswers

  // ---- case ------------------------------------------------------------------

  // Equal but for the case of ASCII letters.
  ghost predicate SameByte(x: byte, y: byte)
  {
    x == y || (65 <= x <= 90 && y == x + 32) || (65 <= y <= 90 && x == y + 32)
  }

  ghost predicate SameText(a: Bytes, b: Bytes)
  {
    |a| == |b| && forall i | 0 <= i < |a| :: SameByte(a[i], b[i])
  }

  lemma FoldMeans(a: Bytes, b: Bytes)
    ensures FoldEqual(a, b) <==> SameText(a, b)
    ensures LowerBytes(a) == LowerBytes(b) <==> SameText(a, b)
  {
    hide LowerByte, SameByte;
    forall x, y ensures LowerByte(x) == LowerByte(y) <==> SameByte(x, y) { ByteFolds(x, y); }
    if LowerBytes(a) == LowerBytes(b) {
      assert |a| == |LowerBytes(a)| == |LowerBytes(b)| == |b|;
      forall i | 0 <= i < |a| ensures SameByte(a[i], b[i]) {
        assert LowerBytes(a)[i] == LowerByte(a[i]) && LowerBytes(b)[i] == LowerByte(b[i]);
      }
    }
    if SameText(a, b) {
      assert forall i | 0 <= i < |a| :: LowerBytes(a)[i] == LowerByte(a[i]) == LowerByte(b[i]) == LowerBytes(b)[i];
      assert LowerBytes(a) == LowerBytes(b);
    }
  }

  // Lowering leaves no capital letter and nothing but case changed.
  lemma Lowered(s: Bytes)
    ensures SameText(s, LowerBytes(s)) && forall b | b in LowerBytes(s) :: !(65 <= b <= 90)
  {
  }

  lemma ByteFolds(x: byte, y: byte)
    ensures LowerByte(x) == LowerByte(y) <==> SameByte(x, y)
  {
  }

  // ---- which reply is ours ---------------------------------------------------

  ghost predicate SameLabels(a: seq<Bytes>, b: seq<Bytes>)
  {
    |a| == |b| && forall i | 0 <= i < |a| :: SameText(a[i], b[i])
  }

  // A response to this id with one question.
  ghost predicate ReplyHeader(reply: Bytes, id: (byte, byte))
  {
    |reply| >= 12 && reply[0] == id.0 && reply[1] == id.1 && reply[2] >= 128 && reply[4] == 0 && reply[5] == 1
  }

  // The labels of the name, up to case, then the type and class IN.
  ghost predicate Echoes(s: Bytes, name: Bytes, qtype: nat, ms: seq<Bytes>)
    requires qtype < 65536
  {
    && (forall l | l in ms :: 1 <= |l| <= 63) && SameLabels(LegalPrefix(Labels(name)), ms)
    && EncodeOwner(Owner(ms, None)) + [qtype / 256, qtype % 256, 0, 1] <= s
  }

  lemma OursExactly(reply: Bytes, id: (byte, byte), name: Bytes, qtype: nat)
    requires qtype == 16 || qtype == 257
    ensures IsOurs(reply, Query(id, name, qtype), id) <==>
            ReplyHeader(reply, id) && exists ms :: Echoes(reply[12..], name, qtype, ms)
  {
    hide EncodeLabels, EncodeOwner, LegalPrefix, Labels, FoldEqual, NameLength;
    var q := Query(id, name, qtype);
    if IsOurs(reply, q, id) {
      var ms := AcceptedAnswersQuestion(reply, id, name, qtype);
      assert ReplyHeader(reply, id);
      LabelsFold(LegalPrefix(Labels(name)), ms);
      LabelsAreOwner(ms);
      assert reply[12..][..|q| - 12] == reply[12..|q|];
      assert Echoes(reply[12..], name, qtype, ms);
    }
    if ReplyHeader(reply, id) {
      if ms :| Echoes(reply[12..], name, qtype, ms) {
        LabelsAreOwner(ms);
        LabelsFold(LegalPrefix(Labels(name)), ms);
        EchoFolds(LegalPrefix(Labels(name)), ms, Trailer(qtype));
        var e := EncodeLabels(ms) + Trailer(qtype);
        assert q[12..] == EncodeLabels(LegalPrefix(Labels(name))) + Trailer(qtype);
        assert |e| == |q| - 12 by { FoldLength(q[12..], e); }
        assert reply[12..][..|e|] == e && reply[12..|q|] == e;
      }
    }
  }

  lemma FoldLength(a: Bytes, b: Bytes)
    requires FoldEqual(a, b)
    ensures |a| == |b|
  {
  }

  lemma LabelsFold(a: seq<Bytes>, b: seq<Bytes>)
    ensures SameLabels(a, b) <==> SameLabelsUpToCase(a, b)
  {
    hide FoldEqual, SameText;
    forall i | 0 <= i < |a| && |a| == |b| ensures SameText(a[i], b[i]) <==> FoldEqual(a[i], b[i]) {
      FoldMeans(a[i], b[i]);
    }
  }

  lemma {:induction false} EchoFolds(ls: seq<Bytes>, ms: seq<Bytes>, tail: Bytes)
    requires (forall l | l in ls :: LegalLabel(l)) && (forall l | l in ms :: LegalLabel(l))
    requires SameLabelsUpToCase(ls, ms)
    ensures FoldEqual(EncodeLabels(ls) + tail, EncodeLabels(ms) + tail)
  {
    hide Label, FoldEqual;
    if ls == [] {
      FoldSelf(EncodeLabels(ls) + tail);
    } else {
      assert SameLabelsUpToCase(ls[1..], ms[1..]) by {
        forall i | 0 <= i < |ls| - 1 ensures FoldEqual(ls[1..][i], ms[1..][i]) {
          assert ls[1..][i] == ls[i + 1] && ms[1..][i] == ms[i + 1];
        }
      }
      EchoFolds(ls[1..], ms[1..], tail);
      assert LegalLabel(ls[0]) && LegalLabel(ms[0]);
      LabelThen(ls[0], EncodeLabels(ls[1..]), tail);
      LabelThen(ms[0], EncodeLabels(ms[1..]), tail);
      LabelFolds(ls[0], ms[0], EncodeLabels(ls[1..]) + tail, EncodeLabels(ms[1..]) + tail);
    }
  }

  lemma FoldSelf(a: Bytes)
    ensures FoldEqual(a, a)
  {
  }

  lemma LabelFolds(l: Bytes, m: Bytes, a: Bytes, b: Bytes)
    requires |l| < 256 && FoldEqual(l, m) && FoldEqual(a, b)
    ensures FoldEqual(Label(l, a), Label(m, b))
  {
  }

  // ---- which records are reported --------------------------------------------

  // The CAA records of a reply are those of type 257 that can be read, in order.
  lemma {:induction false} CaaPicked(rs: seq<Rr>, r: Rr)
    ensures CaaOf([]) == []
    ensures CaaOf(rs + [r]) ==
              CaaOf(rs) + if r.typ == 257 && CaaData(r.data).Some? then [CaaData(r.data).value] else []
  {
    hide CaaData;
    if rs == [] {
      assert rs + [r] == [r] && [r][1..] == [];
    } else {
      CaaPicked(rs[1..], r);
      assert (rs + [r])[1..] == rs[1..] + [r] && (rs + [r])[0] == rs[0];
    }
  }

  // The TXT texts of a reply are those of type 16, in order.
  lemma {:induction false} TxtPicked(rs: seq<Rr>, r: Rr)
    ensures TxtOf([]) == []
    ensures TxtOf(rs + [r]) == TxtOf(rs) + if r.typ == 16 then [TxtData(r.data)] else []
  {
    hide TxtData;
    if rs == [] {
      assert rs + [r] == [r] && [r][1..] == [];
    } else {
      TxtPicked(rs[1..], r);
      assert (rs + [r])[1..] == rs[1..] + [r] && (rs + [r])[0] == rs[0];
      var h := if rs[0].typ == 16 then [TxtData(rs[0].data)] else [];
      var t := if r.typ == 16 then [TxtData(r.data)] else [];
      assert TxtOf(rs + [r]) == h + (TxtOf(rs[1..]) + t) == (h + TxtOf(rs[1..])) + t;
    }
  }

  // A character-string that says it is longer than the data ends the text.
  lemma {:induction false} TxtOverrun(ss: seq<Bytes>, last: Bytes)
    requires (forall x | x in ss :: |x| < 256) && (last == [] || last[0] >= |last|)
    ensures TxtData(EncodeTxt(ss) + last) == Concat(ss)
  {
    hide Label;
    if ss == [] {
      assert EncodeTxt(ss) + last == last;
    } else {
      TxtOverrun(ss[1..], last);
      LabelThen(ss[0], EncodeTxt(ss[1..]), last);
      var d := Label(ss[0], EncodeTxt(ss[1..]) + last);
      assert d[1..1 + d[0]] == ss[0] && d[1 + d[0]..] == EncodeTxt(ss[1..]) + last;
    }
  }

  // ---- what a lookup comes to ------------------------------------------------

  // Our question again, and as many well-formed records as the header counts.
  ghost predicate Wire(reply: Bytes, name: Bytes, qtype: nat, rs: seq<Record>)
    requires qtype < 65536
  {
    exists echo, rest ::
      && |echo| == |Question(name, qtype)| && (forall r | r in rs :: WfRecord(r))
      && ReplyIs(reply, echo, rs, rest)
  }

  // A foreign, short, failing or truncated reply is no answer; NXDOMAIN is a clean "none"; any
  // other is an answer exactly when it can be read to its last record.
  lemma CaaLookedUpExactly(reply: Bytes, id: (byte, byte), name: Bytes)
    ensures var a := CaaAnswer(reply, Query(id, name, 257), id);
            if !IsOurs(reply, Query(id, name, 257), id) then a.Failed?
            else if reply[3] % 16 == 3 then a.Empty?
            else if reply[3] % 16 != 0 || reply[2] / 2 % 2 == 1 then a.Failed?
            else
              && (a.Failed? <==> forall rs :: !Wire(reply, name, 257, rs))
              && (forall rs | Wire(reply, name, 257, rs) ::
                    a == var recs := CaaOf(Payloads(rs)); if recs == [] then Empty else Records(recs))
  {
    hide ReadRrs, Question, EncodeRecords, AfterQuestions, WfRecord, CaaOf;
    var q := Query(id, name, 257);
    if !IsOurs(reply, q, id) || reply[3] % 16 != 0 || reply[2] / 2 % 2 == 1 { return; }
    forall rs | Wire(reply, name, 257, rs)
      ensures CaaAnswer(reply, q, id) == Answered(CaaOf(Payloads(rs)))
    {
      var echo, rest :| && |echo| == |Question(name, 257)| && (forall r | r in rs :: WfRecord(r))
                        && ReplyIs(reply, echo, rs, rest);
      CaaRoundTrip(reply, id, name, echo, rs, rest);
    }
    if !CaaAnswer(reply, q, id).Failed? {
      var echo, rs, rest := CaaSound(reply, id, name);
      assert Wire(reply, name, 257, rs);
    }
  }

  // What follows the question: records that can be read, up to where one cannot.
  ghost predicate ReadsUpTo(s: Bytes, count: nat, rs: seq<Record>)
  {
    && |rs| <= count && (forall r | r in rs :: WfRecord(r))
    && exists rest :: s == EncodeRecords(rs) + rest && (|rs| < count ==> NoRecord(rest))
  }

  ghost predicate NoRecord(s: Bytes) { forall r, more | WfRecord(r) :: s != EncodeRecord(r) + more }

  // A reply to a TXT question yields the texts of the records before the first that cannot be
  // read, whatever its response code; any other datagram yields none.
  lemma TxtLookedUpExactly(reply: Bytes, id: (byte, byte), name: Bytes) returns (rs: seq<Record>)
    ensures var a, q := TxtAnswer(reply, Query(id, name, 16), id), Query(id, name, 16);
            if !IsOurs(reply, q, id) then a == []
            else ReadsUpTo(reply[|q|..], U16(reply[6], reply[7]), rs) && a == TxtOf(Payloads(rs))
  {
    hide ReadRrs, Question, AfterQuestions, ReadsUpTo, TxtOf;
    rs := [];
    var q := Query(id, name, 16);
    if !IsOurs(reply, q, id) { return; }
    AnswersFollowQuestion(reply, id, name, 16);
    rs := ReadablePrefix(reply[|q|..], U16(reply[6], reply[7]));
  }

  lemma {:induction false} ReadablePrefix(s: Bytes, n: nat) returns (rs: seq<Record>)
    ensures ReadsUpTo(s, n, rs) && ReadRrs(s, n).0 == Payloads(rs)
  {
    hide ReadRr, EncodeRecord, WfRecord, NoRecord;
    if n == 0 || ReadRr(s).None? {
      rs := [];
      if n > 0 { Unreadable(s); }
      assert s == EncodeRecords([]) + s;
    } else {
      var k := ReadRr(s).value.1;
      var r := RecordSound(s);
      var others := ReadablePrefix(s[k..], n - 1);
      rs := [r] + others;
      assert rs[1..] == others;
      var rest :| s[k..] == EncodeRecords(others) + rest && (|others| < n - 1 ==> NoRecord(rest));
      assert s == s[..k] + s[k..];
      assert s == EncodeRecords(rs) + rest;
    }
  }

  lemma Unreadable(s: Bytes)
    requires ReadRr(s).None?
    ensures NoRecord(s)
  {
    hide ReadRr, EncodeRecord, WfRecord;
    forall r, more | WfRecord(r) ensures s != EncodeRecord(r) + more { RecordRead(r, more); }
  }

  // ---- the question ----------------------------------------------------------

  // A query: recursion desired and nothing else in the flags, one question and no records; turned
  // into a response as it stands, it is accepted as the reply to itself.
  lemma QueryRule(id: (byte, byte), name: Bytes, qtype: nat)
    requires qtype == 16 || qtype == 257
    ensures var q := Query(id, name, qtype);
            && |q| >= 12 && q[..2] == [id.0, id.1] && q[2] == 1 && q[3] == 0
            && U16(q[4], q[5]) == 1 && U16(q[6], q[7]) == U16(q[8], q[9]) == U16(q[10], q[11]) == 0
            && IsOurs(q[2 := 129], q, id)
  {
    hide Question, FoldEqual;
    var q := Query(id, name, qtype);
    assert q[2 := 129][12..|q|] == q[12..];
    FoldSelf(q[12..]);
  }
}
