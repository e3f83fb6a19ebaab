/** DNS messages as the ACME validator builds and reads them (section 4.1 of RFC 1035):
    query names, owner names, and which reply answers a question. Names and strings are byte
    strings. */
module Dns {
  import opened Text

  type Bytes = seq<byte>

  const DOT: byte := 46

  // ---- names -----------------------------------------------------------------

  function IndexOf(s: Bytes, c: byte): (i: nat)
    ensures i <= |s| && (i < |s| ==> s[i] == c) && c !in s[..i]
  {
    if s == [] || s[0] == c then 0 else 1 + IndexOf(s[1..], c)
  }

  lemma {:induction false} IndexUnique(s: Bytes, c: byte, k: nat)
    requires k <= |s| && (k < |s| ==> s[k] == c) && c !in s[..k]
    ensures IndexOf(s, c) == k
  {
  }

  function Labels(name: Bytes): (ls: seq<Bytes>)
    ensures ls != []
    decreases |name|
  {
    var dot := IndexOf(name, DOT);
    if dot == |name| then [name] else [name[..dot]] + Labels(name[dot + 1..])
  }

  ghost function Join(ls: seq<Bytes>): Bytes
  {
    if ls == [] then [] else if |ls| == 1 then ls[0] else ls[0] + [DOT] + Join(ls[1..])
  }

  predicate LegalLabel(l: Bytes) { 1 <= |l| <= 63 }

  // Encoding stops at the first label that does not fit.
  function LegalPrefix(ls: seq<Bytes>): (ps: seq<Bytes>)
    ensures forall l | l in ps :: LegalLabel(l)
    ensures ps <= ls
    ensures (forall l | l in ls :: LegalLabel(l)) ==> ps == ls
    ensures |ps| < |ls| ==> !LegalLabel(ls[|ps|])
  {
    if ls == [] || !LegalLabel(ls[0]) then [] else [ls[0]] + LegalPrefix(ls[1..])
  }

  // A length octet, the label, and what follows.
  function Label(l: Bytes, rest: Bytes): (s: Bytes)
    requires |l| < 256
    ensures |s| == 1 + |l| + |rest|
    ensures s[0] == |l| && s[1..1 + |l|] == l && s[1 + |l|..] == rest
  {
    var n: byte := |l|;
    [n] + (l + rest)
  }

  // Length-prefixed labels and the root.
  function EncodeLabels(ls: seq<Bytes>): (s: Bytes)
    requires forall l | l in ls :: LegalLabel(l)
    ensures |s| >= 1
  {
    if ls == [] then [0] else assert LegalLabel(ls[0]); Label(ls[0], EncodeLabels(ls[1..]))
  }

  function WireName(name: Bytes): Bytes
  {
    EncodeLabels(LegalPrefix(Labels(name)))
  }

  // dns_encode_name, appending to `prefix`.
  method EncodeName(prefix: Bytes, name: Bytes) returns (out: Bytes)
    ensures out == prefix + WireName(name)
  {
    hide WireName, Labels, Label, LegalPrefix, Tail, IndexOf;
    out := prefix;
    var start := 0;
    TailStart(name);
    while start < |name|
      invariant 0 <= start <= |name| + 1
      invariant out + Tail(name, start) == prefix + WireName(name)
      decreases |name| + 1 - start
    {
      var dot := start + IndexOf(name[start..], DOT);
      var len := dot - start;
      assert name[start..][..len] == name[start..dot];
      if len == 0 || len > 63 { break; }
      TailStep(name, start);
      LabelAppends(out, name[start..dot], Tail(name, dot + 1));
      var n: byte := len;
      out := out + [n];
      out := out + name[start..dot];
      start := dot + 1;
    }
    TailEnd(name, start);
    out := out + [0];
  }

  // What remains to be written once the labels before `start` are out.
  ghost function Tail(name: Bytes, start: nat): Bytes
    requires start <= |name| + 1
  {
    if start >= |name| then [0] else WireName(name[start..])
  }

  lemma LabelAppends(out: Bytes, l: Bytes, rest: Bytes)
    requires |l| < 256
    ensures var n: byte := |l|; out + Label(l, rest) == out + [n] + l + rest
  {
  }

  lemma TailStart(name: Bytes)
    ensures Tail(name, 0) == WireName(name)
  {
  }

  lemma TailStep(name: Bytes, start: nat)
    requires start < |name|
    requires LegalLabel(name[start..][..IndexOf(name[start..], DOT)])
    ensures var n := IndexOf(name[start..], DOT);
            Tail(name, start) == Label(name[start..start + n], Tail(name, start + n + 1))
  {
    hide Label, WireName;
    var s := name[start..];
    var n := IndexOf(s, DOT);
    assert s[..n] == name[start..start + n];
    WireLabel(s);
    if n < |s| {
      assert s[n + 1..] == name[start + n + 1..];
      TailStart(s[n + 1..]);
    }
  }

  lemma WireLabel(s: Bytes)
    requires LegalLabel(s[..IndexOf(s, DOT)])
    ensures var n := IndexOf(s, DOT);
            WireName(s) == Label(s[..n], if n == |s| then [0] else WireName(s[n + 1..]))
  {
    hide Label, IndexOf, LegalPrefix, EncodeLabels, LegalLabel;
    var n := IndexOf(s, DOT);
    if n == |s| {
      assert s[..n] == s;
      assert Labels(s) == [s] + [];
      ConsLabel(s, []);
      ConsNone();
    } else {
      ConsLabel(s[..n], Labels(s[n + 1..]));
    }
  }

  lemma ConsNone()
    ensures EncodeLabels(LegalPrefix([])) == [0]
  {
  }

  lemma ConsLabel(l: Bytes, ls: seq<Bytes>)
    requires LegalLabel(l)
    ensures EncodeLabels(LegalPrefix([l] + ls)) == Label(l, EncodeLabels(LegalPrefix(ls)))
  {
  }

  lemma TailEnd(name: Bytes, start: nat)
    requires start <= |name| + 1
    requires start < |name| ==> !LegalLabel(name[start..][..IndexOf(name[start..], DOT)])
    ensures Tail(name, start) == [0]
  {
  }

  lemma {:induction false} JoinLabels(name: Bytes)
    ensures Join(Labels(name)) == name
    decreases |name|
  {
    hide IndexOf, Join;
    var dot := IndexOf(name, DOT);
    if dot == |name| {
      JoinOne(name);
    } else {
      var up := name[dot + 1..];
      JoinLabels(up);
      JoinMore(name[..dot], Labels(up));
      SplitAt(name, dot);
    }
  }

  lemma JoinOne(l: Bytes)
    ensures Join([l]) == l
  {
  }

  lemma JoinMore(l: Bytes, ls: seq<Bytes>)
    requires ls != []
    ensures Join([l] + ls) == l + [DOT] + Join(ls)
  {
    assert ([l] + ls)[1..] == ls;
  }

  lemma SplitAt(name: Bytes, dot: nat)
    requires dot < |name| && name[dot] == DOT
    ensures name[..dot] + [DOT] + name[dot + 1..] == name
  {
  }

  // A name splits at its dots, in one way only.
  lemma {:induction false} LabelsExactly(name: Bytes, ls: seq<Bytes>)
    ensures Labels(name) == ls <==> ls != [] && (forall l | l in ls :: 46 !in l) && Join(ls) == name
    decreases |name|
  {
    hide IndexOf, Join;
    JoinLabels(name);
    var dot := IndexOf(name, DOT);
    if dot < |name| { LabelsExactly(name[dot + 1..], if ls == [] then [] else ls[1..]); }
    NoDotInside(name);
    if ls != [] && (forall l | l in ls :: 46 !in l) && Join(ls) == name {
      if |ls| == 1 {
        assert ls == [ls[0]];
        JoinOne(ls[0]);
        assert name[..|name|] == name;
        IndexUnique(name, DOT, |name|);
      } else {
        assert ls == [ls[0]] + ls[1..];
        JoinMore(ls[0], ls[1..]);
        assert name == ls[0] + [DOT] + Join(ls[1..]);
        assert name[..|ls[0]|] == ls[0] && name[|ls[0]| + 1..] == Join(ls[1..]);
        IndexUnique(name, DOT, |ls[0]|);
      }
    }
  }

  lemma {:induction false} NoDotInside(name: Bytes)
    ensures forall l | l in Labels(name) :: 46 !in l
    decreases |name|
  {
    hide IndexOf;
    var dot := IndexOf(name, DOT);
    if dot < |name| { NoDotInside(name[dot + 1..]); } else { assert name[..dot] == name; }
  }

  // Leaving off labels leaves a shorter name.
  lemma {:induction false} ShorterJoin(ls: seq<Bytes>, n: nat)
    requires n < |ls|
    ensures |Join(ls[..n])| < |Join(ls)| || Join(ls) == []
  {
    if n > 0 {
      ShorterJoin(ls[1..], n - 1);
      assert ls[..n][1..] == ls[1..][..n - 1];
    }
  }

  // The question asks about the whole name exactly when every label is 1 to 63 bytes;
  // otherwise it asks about a shorter name.
  lemma {:induction false} NameEncodedExactly(name: Bytes)
    ensures Join(LegalPrefix(Labels(name))) == name <==>
            (name == [] || forall l | l in Labels(name) :: 1 <= |l| <= 63)
  {
    hide Labels, Join;
    var ls := Labels(name);
    JoinLabels(name);
    if name == [] {
      EmptyName();
    } else {
      var ps := LegalPrefix(ls);
      assert ps == ls[..|ps|];
      if |ps| < |ls| { ShorterJoin(ls, |ps|); }
    }
  }

  lemma EmptyName()
    ensures Join(LegalPrefix(Labels([]))) == []
  {
    assert Labels([]) == [[]];
    assert !LegalLabel([]);
  }

  // ---- skipping a name -------------------------------------------------------

  // The bytes a (possibly compressed) name takes at the front of s.
  function NameLength(s: Bytes): (n: Option<nat>)
    ensures n.Some? ==> 1 <= n.value <= |s|
  {
    if s == [] then None
    else if s[0] >= 0xC0 then (if |s| >= 2 then Some(2) else None)
    else if s[0] == 0 then Some(1)
    else if 1 + s[0] > |s| then None
    else
      match NameLength(s[1 + s[0]..])
      case None => None
      case Some(k) => Some(1 + s[0] + k)
  }

  // dns_skip_name; `pos` may already lie past the end.
  method SkipName(msg: Bytes, start: nat) returns (ok: bool, pos: nat)
    ensures var n := NameLength(From(msg, start)); ok == n.Some? && (ok ==> pos == start + n.value)
    ensures pos >= start
  {
    hide NameLength, From;
    pos := start;
    while pos < |msg|
      invariant pos >= start && SameEnd(msg, start, pos)
      decreases |msg| - pos
    {
      var b := msg[pos];
      SkipStep(msg, pos);
      if b >= 0xC0 { return pos + 2 <= |msg|, pos + 2; }
      if b == 0 { return true, pos + 1; }
      pos := pos + 1 + b;
    }
    SkipStep(msg, pos);
    ok := false;
  }

  function From(msg: Bytes, pos: nat): Bytes
  {
    if pos <= |msg| then msg[pos..] else []
  }

  // The name at p ends where the name at q, further along, ends.
  ghost predicate SameEnd(msg: Bytes, p: nat, q: nat)
  {
    var n, m := NameLength(From(msg, p)), NameLength(From(msg, q));
    n.Some? == m.Some? && (n.Some? ==> p + n.value == q + m.value)
  }

  lemma SkipStep(msg: Bytes, pos: nat)
    ensures pos >= |msg| ==> NameLength(From(msg, pos)) == None
    ensures pos < |msg| ==>
              var b, n := msg[pos], NameLength(From(msg, pos));
              if b >= 0xC0 then n == if pos + 2 <= |msg| then Some(2) else None
              else if b == 0 then n == Some(1)
              else SameEnd(msg, pos, pos + 1 + b)
  {
  }

  // An owner name on the wire: labels, then the root or a compression pointer. The reader
  // takes any length octet below 0xC0 at face value, so up to 191.
  datatype Owner = Owner(labels: seq<Bytes>, pointer: Option<(byte, byte)>)

  ghost predicate WfOwner(o: Owner)
  {
    && (forall l | l in o.labels :: 1 <= |l| <= 191)
    && (o.pointer.Some? ==> o.pointer.value.0 >= 0xC0)
  }

  ghost function EncodeOwner(o: Owner): (s: Bytes)
    requires WfOwner(o)
    decreases |o.labels|
  {
    if o.labels != [] then Label(o.labels[0], EncodeOwner(Owner(o.labels[1..], o.pointer)))
    else if o.pointer.Some? then [o.pointer.value.0, o.pointer.value.1]
    else [0]
  }

  lemma {:induction false} OwnerSkipped(o: Owner, rest: Bytes)
    requires WfOwner(o)
    ensures NameLength(EncodeOwner(o) + rest) == Some(|EncodeOwner(o)|)
    decreases |o.labels|
  {
    hide Label, NameLength;
    if o.labels != [] {
      var l, o' := o.labels[0], Owner(o.labels[1..], o.pointer);
      OwnerSkipped(o', rest);
      LabelThen(l, EncodeOwner(o'), rest);
      LabelSkipped(l, EncodeOwner(o') + rest);
    } else {
      OwnerEnd(o, rest);
    }
  }

  lemma OwnerEnd(o: Owner, rest: Bytes)
    requires WfOwner(o) && o.labels == []
    ensures NameLength(EncodeOwner(o) + rest) == Some(|EncodeOwner(o)|)
  {
  }

  lemma LabelSkipped(l: Bytes, rest: Bytes)
    requires 1 <= |l| <= 191 && NameLength(rest).Some?
    ensures NameLength(Label(l, rest)) == Some(1 + |l| + NameLength(rest).value)
  {
    hide Label, NameLength;
    var s := Label(l, rest);
    SkipStep(s, 0);
    assert From(s, 0) == s && From(s, 1 + s[0]) == rest;
  }

  lemma LabelThen(l: Bytes, mid: Bytes, rest: Bytes)
    requires |l| < 256
    ensures Label(l, mid) + rest == Label(l, mid + rest)
  {
  }

  // A slice of what is left of a buffer is a slice of the buffer.
  lemma SliceOf(buf: Bytes, p: nat, a: nat, b: nat)
    requires p <= a <= b <= |buf|
    ensures buf[p..][a - p..b - p] == buf[a..b]
  {
  }

  lemma {:induction false} SkippedIsOwner(s: Bytes) returns (o: Owner)
    requires NameLength(s).Some?
    ensures WfOwner(o) && EncodeOwner(o) == s[..NameLength(s).value]
    decreases |s|
  {
    hide Label;
    if s[0] >= 0xC0 {
      o := Owner([], Some((s[0], s[1])));
    } else if s[0] == 0 {
      o := Owner([], None);
    } else {
      var l, rest := s[1..1 + s[0]], s[1 + s[0]..];
      var o' := SkippedIsOwner(rest);
      o := Owner([l] + o'.labels, o'.pointer);
      assert Owner(o.labels[1..], o.pointer) == o';
      LabelPrefix(s, NameLength(s).value);
    }
  }

  lemma LabelPrefix(s: Bytes, n: nat)
    requires s != [] && 1 + s[0] <= n <= |s|
    ensures s[..n] == Label(s[1..1 + s[0]], s[1 + s[0]..][..n - 1 - s[0]])
  {
  }

  // ---- is this datagram the answer to our question? --------------------------

  function U16(hi: byte, lo: byte): nat { 256 * hi + lo }

  // Header (recursion desired, one question), name, type, class IN.
  function Query(id: (byte, byte), name: Bytes, qtype: nat): Bytes
    requires qtype < 65536
  {
    [id.0, id.1, 1, 0, 0, 1, 0, 0, 0, 0, 0, 0] + Question(name, qtype)
  }

  function Question(name: Bytes, qtype: nat): Bytes
    requires qtype < 65536
  {
    WireName(name) + Trailer(qtype)
  }

  function Trailer(qtype: nat): (t: Bytes)
    requires qtype < 65536
    ensures |t| == 4
  {
    [qtype / 256, qtype % 256, 0, 1]
  }

  predicate FoldEqual(a: Bytes, b: Bytes)
  {
    |a| == |b| && forall i | 0 <= i < |a| :: LowerByte(a[i]) == LowerByte(b[i])
  }

  ghost predicate IsOurs(reply: Bytes, q: Bytes, id: (byte, byte))
  {
    && |q| >= 12 && |reply| >= |q|
    && reply[0] == id.0 && reply[1] == id.1
    && reply[2] >= 0x80
    && U16(reply[4], reply[5]) == 1
    && FoldEqual(q[12..], reply[12..|q|])
  }

  // dns_reply_is_ours.
  method ReplyIsOurs(buf: Bytes, q: Bytes, id: (byte, byte)) returns (ours: bool)
    ensures ours <==> IsOurs(buf, q, id)
  {
    if |buf| < 12 || |q| < 12 { return false; }
    if buf[0] != id.0 || buf[1] != id.1 { return false; }
    if buf[2] < 0x80 { return false; }
    if U16(buf[4], buf[5]) != 1 { return false; }
    var qlen := |q| - 12;
    if |buf| < 12 + qlen { return false; }
    for i := 0 to qlen
      invariant forall k | 0 <= k < i :: LowerByte(q[12..][k]) == LowerByte(buf[12..|q|][k])
    {
      if LowerByte(q[12 + i]) != LowerByte(buf[12 + i]) {
        assert q[12..][i] == q[12 + i] && buf[12..|q|][i] == buf[12 + i];
        return false;
      }
    }
    return true;
  }

  ghost predicate SameLabelsUpToCase(a: seq<Bytes>, b: seq<Bytes>)
  {
    |a| == |b| && forall i | 0 <= i < |a| :: FoldEqual(a[i], b[i])
  }

  predicate Letter(b: byte) { 65 <= b <= 90 || 97 <= b <= 122 }

  lemma FoldKeepsNonLetters(x: byte, y: byte)
    requires LowerByte(x) == LowerByte(y) && !Letter(x)
    ensures x == y
  {
  }

  // Case folding never moves a label boundary: a length octet is not a letter.
  lemma {:induction false} FoldedName(ls: seq<Bytes>, tail: Bytes, b: Bytes) returns (ms: seq<Bytes>)
    requires forall l | l in ls :: LegalLabel(l)
    requires forall x | x in tail :: !Letter(x)
    requires FoldEqual(EncodeLabels(ls) + tail, b)
    ensures SameLabelsUpToCase(ls, ms) && forall l | l in ms :: LegalLabel(l)
    ensures b == EncodeLabels(ms) + tail
    decreases |ls|
  {
    hide Label, LowerByte;
    var a := EncodeLabels(ls) + tail;
    if ls == [] {
      ms := [];
      assert EncodeLabels(ms) + tail == [0] + tail;
      FoldedFixed([0] + tail, b);
    } else {
      LabelThen(ls[0], EncodeLabels(ls[1..]), tail);
      var m, b' := FoldedLabel(ls[0], EncodeLabels(ls[1..]) + tail, b);
      var ms' := FoldedName(ls[1..], tail, b');
      ms := [m] + ms';
      assert ms[1..] == ms';
      LabelThen(m, EncodeLabels(ms'), tail);
      assert forall i | 1 <= i < |ls| :: ls[i] == ls[1..][i - 1];
    }
  }

  lemma FoldedFixed(a: Bytes, b: Bytes)
    requires FoldEqual(a, b) && forall x | x in a :: !Letter(x)
    ensures a == b
  {
    forall i | 0 <= i < |a| ensures a[i] == b[i] {
      assert a[i] in a;
      FoldKeepsNonLetters(a[i], b[i]);
    }
  }

  lemma FoldedLabel(l: Bytes, rest: Bytes, b: Bytes) returns (m: Bytes, b': Bytes)
    requires LegalLabel(l) && FoldEqual(Label(l, rest), b)
    ensures FoldEqual(l, m) && LegalLabel(m) && FoldEqual(rest, b') && b == Label(m, b')
  {
    hide LowerByte;
    var a, n := Label(l, rest), |l|;
    FoldKeepsNonLetters(a[0], b[0]);
    m, b' := b[1..1 + n], b[1 + n..];
    forall i | 0 <= i < n ensures LowerByte(l[i]) == LowerByte(m[i]) {
      assert a[1 + i] == l[i] && b[1 + i] == m[i];
    }
    forall i | 0 <= i < |rest| ensures LowerByte(rest[i]) == LowerByte(b'[i]) {
      assert a[1 + n + i] == rest[i] && b[1 + n + i] == b'[i];
    }
    assert b == [b[0]] + (m + b');
  }

  // An accepted reply carries our question: the same labels up to ASCII case, the same type
  // and class; and the name skipper stops exactly in front of that type and class.
  lemma AcceptedAnswersQuestion(reply: Bytes, id: (byte, byte), name: Bytes, qtype: nat)
      returns (ms: seq<Bytes>)
    requires qtype == 16 || qtype == 257
    requires IsOurs(reply, Query(id, name, qtype), id)
    ensures SameLabelsUpToCase(LegalPrefix(Labels(name)), ms) && forall l | l in ms :: LegalLabel(l)
    ensures var q := Query(id, name, qtype);
            && reply[12..|q|] == EncodeLabels(ms) + Trailer(qtype)
            && NameLength(reply[12..]) == Some(|q| - 16)
  {
    hide NameLength, EncodeLabels, EncodeOwner, LegalPrefix, Labels, FoldEqual;
    var ls, tail, n := LegalPrefix(Labels(name)), Trailer(qtype), |Query(id, name, qtype)|;
    assert Query(id, name, qtype)[12..] == EncodeLabels(ls) + tail;
    ms := FoldedName(ls, tail, reply[12..n]);
    LabelsAreOwner(ms);
    var e := EncodeLabels(ms);
    SplitReply(reply, n, e, tail);
    OwnerSkipped(Owner(ms, None), tail + reply[n..]);
  }

  lemma SplitReply(reply: Bytes, n: nat, e: Bytes, tail: Bytes)
    requires 12 <= n <= |reply| && reply[12..n] == e + tail
    ensures reply[12..] == e + (tail + reply[n..]) && n == 12 + |e| + |tail|
  {
  }

  lemma {:induction false} LabelsAreOwner(ls: seq<Bytes>)
    requires forall l | l in ls :: LegalLabel(l)
    ensures WfOwner(Owner(ls, None)) && EncodeOwner(Owner(ls, None)) == EncodeLabels(ls)
  {
    if ls != [] { LabelsAreOwner(ls[1..]); }
  }
}
