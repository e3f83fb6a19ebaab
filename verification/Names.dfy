/** DNS identifiers: wildcards, and the syntax every ordered name is checked against. */
module Names {
  import opened Text
  import opened Dns

  const STAR: byte := 42
  const HYPHEN: byte := 45

  predicate IsWild(name: Bytes) { |name| >= 2 && name[0] == STAR && name[1] == DOT }

  function Base(name: Bytes): Bytes
  {
    if IsWild(name) then name[2..] else name
  }

  predicate Ldh(b: byte)
  {
    97 <= b <= 122 || 65 <= b <= 90 || 48 <= b <= 57 || b == HYPHEN || b == 95
  }

  predicate GoodLabel(l: Bytes)
  {
    LegalLabel(l) && (forall b | b in l :: Ldh(b)) && l[0] != HYPHEN && l[|l| - 1] != HYPHEN
  }

  predicate ValidDnsName(name: Bytes)
  {
    1 <= |name| <= 253 && forall l | l in Labels(Base(name)) :: GoodLabel(l)
  }

  // A label that may still grow: nothing in it is wrong yet.
  ghost predicate SoFar(p: Bytes)
  {
    |p| <= 63 && (forall b | b in p :: Ldh(b)) && (p != [] ==> p[0] != HYPHEN)
  }

  ghost predicate AllGood(name: Bytes) { forall l | l in Labels(name) :: GoodLabel(l) }

  // The scan at position k with the last `len` bytes in the label under way: that label so
  // far, and whether all labels from it on are good.
  ghost predicate Growing(n: Bytes, k: nat, len: nat)
    requires len <= k <= |n|
  {
    SoFar(n[k - len..k])
  }

  ghost predicate RestGood(n: Bytes, k: nat, len: nat)
    requires len <= k <= |n|
  {
    AllGood(n[k - len..])
  }

  // dns_name_ok.
  method DnsNameOk(n: Bytes) returns (ok: bool)
    ensures ok <==> ValidDnsName(n)
  {
    hide Growing, RestGood, ValidDnsName, Ldh;
    if n == [] || |n| > 253 {
      MeansAllGood(n);
      return false;
    }
    var i := if IsWild(n) then 2 else 0;
    ScanStarts(n, i);
    if i >= |n| { return false; }
    var len := 0;
    for k := i to |n|
      invariant i + len <= k
      invariant Growing(n, k, len)
      invariant ValidDnsName(n) <==> RestGood(n, k, len)
    {
      var c := n[k];
      if c == DOT {
        DotStep(n, k, len);
        if len == 0 { return false; }
        if n[k - 1] == HYPHEN { return false; }
        len := 0;
        continue;
      }
      CharStep(n, k, len);
      if !Ldh(c) { return false; }
      if c == HYPHEN && len == 0 { return false; }
      len := len + 1;
      if len > 63 { return false; }
    }
    ScanEnds(n, len);
    if len == 0 { return false; }
    if n[|n| - 1] == HYPHEN { return false; }
    ok := true;
  }

  lemma ScanStarts(n: Bytes, i: nat)
    requires 1 <= |n| <= 253 && i == if IsWild(n) then 2 else 0
    ensures Growing(n, i, 0) && (ValidDnsName(n) <==> RestGood(n, i, 0))
    ensures i == |n| ==> !ValidDnsName(n)
  {
    hide AllGood, ValidDnsName;
    assert Base(n) == n[i..] && n[i..i] == [];
    MeansAllGood(n);
    EmptyLabel();
  }

  lemma DotStep(n: Bytes, k: nat, len: nat)
    requires len <= k < |n| && n[k] == DOT && Growing(n, k, len)
    ensures RestGood(n, k, len) <==> len > 0 && n[k - 1] != HYPHEN && RestGood(n, k + 1, 0)
    ensures Growing(n, k + 1, 0)
  {
    hide AllGood, SoFar;
    NothingYet();
    assert n[k + 1..k + 1] == [];
    assert n[k - len..] == n[k - len..k] + ([DOT] + n[k + 1..]);
    LabelEnds(n[k - len..k], n[k + 1..]);
  }

  lemma CharStep(n: Bytes, k: nat, len: nat)
    requires len <= k < |n| && n[k] != DOT && Growing(n, k, len)
    ensures RestGood(n, k, len) == RestGood(n, k + 1, len + 1)
    ensures Growing(n, k + 1, len + 1) <==> Ldh(n[k]) && !(n[k] == HYPHEN && len == 0) && len < 63
    ensures !Growing(n, k + 1, len + 1) ==> !RestGood(n, k, len)
  {
    hide AllGood, SoFar, Ldh;
    var p := n[k - len..k];
    assert n[k - len..k + 1] == p + [n[k]];
    assert n[k - len..] == (p + [n[k]]) + n[k + 1..];
    LabelGrows(p, n[k], n[k + 1..]);
  }

  lemma ScanEnds(n: Bytes, len: nat)
    requires len <= |n| && Growing(n, |n|, len)
    ensures RestGood(n, |n|, len) <==> len > 0 && n[|n| - 1] != HYPHEN
  {
    hide AllGood, SoFar;
    assert n[|n| - len..|n|] == n[|n| - len..];
    LastLabel(n[|n| - len..]);
  }

  lemma MeansAllGood(n: Bytes)
    ensures ValidDnsName(n) <==> 1 <= |n| <= 253 && AllGood(Base(n))
  {
  }

  lemma NothingYet()
    ensures SoFar([])
  {
  }

  lemma EmptyLabel()
    ensures !AllGood([])
  {
    assert Labels([]) == [[]];
    assert [] in Labels([]);
  }

  lemma NoDotYet(p: Bytes)
    requires SoFar(p)
    ensures DOT !in p
  {
  }

  lemma LastLabel(p: Bytes)
    requires SoFar(p)
    ensures AllGood(p) <==> p != [] && p[|p| - 1] != HYPHEN
  {
    hide IndexOf;
    NoDotYet(p);
    IndexUnique(p, DOT, |p|);
    assert Labels(p) == [p];
    assert p in Labels(p);
  }

  lemma LabelEnds(p: Bytes, rest: Bytes)
    requires SoFar(p)
    ensures AllGood(p + ([DOT] + rest)) <==> p != [] && p[|p| - 1] != HYPHEN && AllGood(rest)
  {
    hide IndexOf;
    var s := p + ([DOT] + rest);
    NoDotYet(p);
    assert s[..|p|] == p && s[|p| + 1..] == rest;
    IndexUnique(s, DOT, |p|);
    assert Labels(s) == [p] + Labels(rest);
    assert forall l :: l in Labels(s) <==> l == p || l in Labels(rest);
    assert GoodLabel(p) <==> p != [] && p[|p| - 1] != HYPHEN;
  }

  // The label under way is the beginning of the first label, whatever follows.
  lemma FirstLabelStarts(p: Bytes, rest: Bytes) returns (l: Bytes)
    requires DOT !in p
    ensures l in Labels(p + rest) && p <= l
  {
    hide IndexOf;
    var s := p + rest;
    var dot := IndexOf(s, DOT);
    assert s[..|p|] == p;
    assert forall k | 0 <= k < |p| :: s[k] == p[k] && p[k] in p;
    l := s[..dot];
    assert Labels(s)[0] == l;
    assert p == l[..|p|];
  }

  lemma LabelGrows(p: Bytes, c: byte, rest: Bytes)
    requires SoFar(p) && c != DOT
    ensures SoFar(p + [c]) <==> Ldh(c) && !(c == HYPHEN && p == []) && |p| < 63
    ensures !SoFar(p + [c]) ==> !AllGood((p + [c]) + rest)
  {
    hide Labels, IndexOf;
    var q := p + [c];
    NoDotYet(p);
    assert q[|p|] == c && c in q;
    assert forall b :: b in q <==> b in p || b == c;
    assert p != [] ==> q[0] == p[0];
    var l := FirstLabelStarts(q, rest);
    assert |l| >= |q| && l[..|q|] == q;
    if !SoFar(q) {
      if !Ldh(c) { assert l[|p|] == c; assert c in l; }
      assert l[0] == q[0];
      assert !GoodLabel(l);
    }
  }

  // Every name an order may hold is put whole into a DNS question about its base.
  lemma OrderedNameAskedWhole(name: Bytes)
    requires ValidDnsName(name)
    ensures Join(LegalPrefix(Labels(Base(name)))) == Base(name)
  {
    hide Labels, Join, LegalPrefix, Base;
    NameEncodedExactly(Base(name));
  }

  // A wildcard of a wildcard is not a name: what is left of a valid one starts with no "*.".
  lemma ValidIsPlain(name: Bytes)
    requires ValidDnsName(name)
    ensures !IsWild(Base(name))
  {
    hide Labels, IsWild;
    var n := Base(name);
    if IsWild(n) {
      StarLabel(n);
      assert false;
    }
  }

  lemma StarLabel(n: Bytes)
    requires IsWild(n)
    ensures exists l :: l in Labels(n) && !GoodLabel(l)
  {
    hide Labels;
    assert n == [STAR] + n[1..];
    var l := FirstLabelStarts([STAR], n[1..]);
    assert l[0] == STAR && STAR in l && !Ldh(STAR);
  }

  // ---- the syntax, spelled out -----------------------------------------------

  // One to 63 letters, digits, hyphens and underscores, no hyphen at either end.
  ghost predicate HostLabel(l: Bytes)
  {
    && 1 <= |l| <= 63 && l[0] != 45 && l[|l| - 1] != 45
    && forall b | b in l :: 65 <= b <= 90 || 97 <= b <= 122 || 48 <= b <= 57 || b == 45 || b == 95
  }

  ghost predicate HostName(name: Bytes, ls: seq<Bytes>)
  {
    ls != [] && Join(ls) == name && forall l | l in ls :: HostLabel(l)
  }

  // A name is valid if and only if it is such labels joined by dots, perhaps behind "*.".
  lemma ValidNameExactly(name: Bytes)
    ensures ValidDnsName(name) <==>
            && 1 <= |name| <= 253
            && exists ls :: HostName(name, ls) || (|name| >= 2 && name[..2] == [42, 46] && HostName(name[2..], ls))
  {
    hide Labels, Join;
    var base := Base(name);
    BaseSpelled(name);
    assert forall l :: GoodLabel(l) <==> HostLabel(l);
    if ValidDnsName(name) {
      LabelsExactly(base, Labels(base));
      assert HostName(base, Labels(base));
    }
    if 1 <= |name| <= 253 {
      if ls :| HostName(name, ls) {
        HostNameLabels(name, ls);
        if IsWild(name) { StarLabel(name); assert false; }
      }
      if ls :| |name| >= 2 && name[..2] == [42, 46] && HostName(name[2..], ls) {
        HostNameLabels(name[2..], ls);
      }
    }
  }

  lemma BaseSpelled(name: Bytes)
    ensures IsWild(name) <==> |name| >= 2 && name[..2] == [42, 46]
    ensures Base(name) == if |name| >= 2 && name[..2] == [42, 46] then name[2..] else name
  {
    if |name| >= 2 { assert name[..2] == [name[0], name[1]]; }
  }

  lemma HostNameLabels(name: Bytes, ls: seq<Bytes>)
    requires HostName(name, ls)
    ensures Labels(name) == ls && forall l | l in Labels(name) :: GoodLabel(l)
  {
    hide Labels, Join;
    LabelsExactly(name, ls);
  }
}
