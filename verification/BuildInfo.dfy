/** simsys_build_info: a gauge sample per label tuple, and the set that records
    who may remove it. Python keys the set by the tuple itself, Node by the
    tuple's parts joined with NUL. */
module BuildInfo {
  import opened Text

  datatype Labels = Labels(service: string, version: string, commit: string, startedAt: string)

  /** The ownership set and the gauge's samples. */
  datatype Ledger<K(==)> = Ledger(owned: set<K>, samples: map<Labels, real>)

  function Registered<K>(g: Ledger<K>, key: K, l: Labels): Ledger<K> {
    Ledger(g.owned + {key}, g.samples[l := 1.0])
  }

  function UnregisteredIfOwned<K>(g: Ledger<K>, key: K, l: Labels, wasNew: bool): Ledger<K> {
    if wasNew then Ledger(g.owned - {key}, g.samples - {l}) else g
  }

  function LabelKey(l: Labels): string {
    Join([l.service, l.version, l.commit, l.startedAt], '\0')
  }

  /** Samples and ownership agree: every sample is 1 and its key is owned, and
      every owned key belongs to a sample. */
  ghost predicate Consistent(g: Ledger<string>) {
    && (forall l <- g.samples :: g.samples[l] == 1.0 && LabelKey(l) in g.owned)
    && (forall k <- g.owned :: exists l :: l in g.samples && LabelKey(l) == k)
  }

  predicate NulFree(l: Labels) {
    '\0' !in l.service && '\0' !in l.version && '\0' !in l.commit && '\0' !in l.startedAt
  }

  /** On NUL-free labels the joined key identifies the tuple: splitting the key
      gives the four parts back. */
  lemma {:induction false} LabelKeyInjective(l: Labels)
    requires NulFree(l)
    ensures Split(LabelKey(l), '\0') == [l.service, l.version, l.commit, l.startedAt]
  {
    SplitUndoesJoin([l.service, l.version, l.commit, l.startedAt], '\0');
  }

  lemma SameKeySameLabels(a: Labels, b: Labels)
    requires NulFree(a) && NulFree(b) && LabelKey(a) == LabelKey(b)
    ensures a == b
  {
    LabelKeyInjective(a);
    LabelKeyInjective(b);
    var pa, pb := [a.service, a.version, a.commit, a.startedAt], [b.service, b.version, b.commit, b.startedAt];
    assert pa == pb;
    assert pa[0] == pb[0] && pa[1] == pb[1] && pa[2] == pb[2] && pa[3] == pb[3];
  }

  lemma KeySpelledOut(l: Labels)
    ensures LabelKey(l) == l.service + "\0" + l.version + "\0" + l.commit + "\0" + l.startedAt
  {
    var a, b, c, d := l.service, l.version, l.commit, l.startedAt;
    assert [a, b, c, d][1..] == [b, c, d];
    assert [b, c, d][1..] == [c, d];
    assert [c, d][1..] == [d];
    calc {
      Join([a, b, c, d], '\0');
      a + "\0" + (b + "\0" + Join([c, d], '\0'));
      a + "\0" + (b + "\0" + (c + "\0" + d));
      a + "\0" + b + "\0" + c + "\0" + d;
    }
  }

  lemma {:induction false} KeyPartCount(l: Labels)
    ensures |Split(LabelKey(l), '\0')| ==
            |Split(l.service, '\0')| + |Split(l.version, '\0')| + |Split(l.commit, '\0')| + |Split(l.startedAt, '\0')|
  {
    var x := l.service + "\0" + l.version;
    var y := x + "\0" + l.commit;
    KeySpelledOut(l);
    SplitCount(l.service, l.version, '\0');
    SplitCount(x, l.commit, '\0');
    SplitCount(y, l.startedAt, '\0');
  }

  lemma CutAt(s: string) returns (u: string, v: string)
    requires '\0' in s
    ensures s == u + "\0" + v && |u| < |s| && |v| < |s|
  {
    var i :| 0 <= i < |s| && s[i] == '\0';
    u, v := s[..i], s[i + 1..];
  }

  /** A tuple with a NUL inside a part shares its key with another tuple: the
      part can be cut at that NUL instead of at its own end. */
  lemma KeyAmbiguous(a: Labels) returns (b: Labels)
    requires !NulFree(a)
    ensures b != a && LabelKey(b) == LabelKey(a)
  {
    if '\0' in a.service {
      var u, v := CutAt(a.service);
      b := a.(service := u, version := v + "\0" + a.version);
      assert u + "\0" + (v + "\0" + a.version) == a.service + "\0" + a.version;
    } else if '\0' in a.version {
      var u, v := CutAt(a.version);
      b := a.(service := a.service + "\0" + u, version := v);
      assert a.service + "\0" + u + "\0" + v == a.service + "\0" + a.version;
    } else if '\0' in a.commit {
      var u, v := CutAt(a.commit);
      b := a.(version := a.version + "\0" + u, commit := v);
      assert a.service + "\0" + (a.version + "\0" + u) + "\0" + v == a.service + "\0" + a.version + "\0" + a.commit;
    } else {
      var u, v := CutAt(a.startedAt);
      b := a.(commit := a.commit + "\0" + u, startedAt := v);
      var x := a.service + "\0" + a.version + "\0";
      assert x + (a.commit + "\0" + u) + "\0" + v == x + a.commit + "\0" + a.startedAt;
    }
    KeySpelledOut(a);
    KeySpelledOut(b);
  }

  /** A joined key identifies its tuple exactly when no part contains a NUL. */
  lemma KeyUniqueExactly(a: Labels)
    ensures NulFree(a) <==> forall b :: LabelKey(b) == LabelKey(a) ==> b == a
  {
    if NulFree(a) {
      forall b | LabelKey(b) == LabelKey(a) ensures b == a {
        LabelKeyInjective(a);
        KeyPartCount(b);
        SplitOnePart(b.service, '\0');
        SplitOnePart(b.version, '\0');
        SplitOnePart(b.commit, '\0');
        SplitOnePart(b.startedAt, '\0');
        SameKeySameLabels(a, b);
      }
    } else {
      var b := KeyAmbiguous(a);
    }
  }

  /** The joined-key ledger g stands for the tuple ledger t. */
  ghost predicate Refines(g: Ledger<string>, t: Ledger<Labels>) {
    && g.samples == t.samples
    && (forall l <- t.owned :: NulFree(l) && LabelKey(l) in g.owned)
    && (forall k <- g.owned :: exists l :: l in t.owned && LabelKey(l) == k)
  }

  /** On NUL-free labels the joined-key set answers and evolves exactly like a
      set of tuples, registration by registration and rollback by rollback. */
  lemma KeysRefineTuples(g: Ledger<string>, t: Ledger<Labels>, l: Labels, wasNew: bool)
    requires Refines(g, t) && NulFree(l)
    ensures LabelKey(l) in g.owned <==> l in t.owned
    ensures Refines(Registered(g, LabelKey(l), l), Registered(t, l, l))
    ensures Refines(UnregisteredIfOwned(g, LabelKey(l), l, wasNew), UnregisteredIfOwned(t, l, l, wasNew))
  {
    if LabelKey(l) in g.owned {
      var l' :| l' in t.owned && LabelKey(l') == LabelKey(l);
      SameKeySameLabels(l, l');
    }
    var g1, t1 := Registered(g, LabelKey(l), l), Registered(t, l, l);
    forall k <- g1.owned ensures exists l' :: l' in t1.owned && LabelKey(l') == k {
      if k == LabelKey(l) {
        assert l in t1.owned;
      } else {
        var l' :| l' in t.owned && LabelKey(l') == k;
        assert l' in t1.owned;
      }
    }
    if wasNew {
      var g2, t2 := UnregisteredIfOwned(g, LabelKey(l), l, true), UnregisteredIfOwned(t, l, l, true);
      forall l' <- t2.owned ensures LabelKey(l') in g2.owned {
        if LabelKey(l') == LabelKey(l) { SameKeySameLabels(l, l'); }
      }
      forall k <- g2.owned ensures exists l' :: l' in t2.owned && LabelKey(l') == k {
        var l' :| l' in t.owned && LabelKey(l') == k;
        assert l' in t2.owned;
      }
    }
  }
}
