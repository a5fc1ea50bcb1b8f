/** What folding does to a topology, and what a folded link then computes. */
module FoldMeaning {
  import opened Iq
  import opened Phase
  import opened Chain
  import opened RuntimeControl
  import opened CpuLinks
  import opened Fold
  import Tdl
  import TdlStream
  import TdlResponse

  datatype Setup = Setup(devices: seq<Device>, links: seq<Link>, models: map<string, Model>, naming: Naming)
  {
    function After(k: nat): (f: Folding)
      requires k <= |links|
      ensures |f.names| == k
    {
      FoldUpTo(devices, naming, models, links, k)
    }

    function Delay(k: nat): real
      requires k < |links|
    {
      Total(devices, links[k])
    }

    /** Every delayed link names a configured model. */
    predicate KnownBases() {
      forall k :: 0 <= k < |links| ==> Delay(k) == 0.0 || links[k].model in models
    }

    predicate Folds(k: nat)
      requires k < |links|
    {
      Delay(k) != 0.0 && links[k].model in models
    }

    /** Links with the same total delay and base share a clone. */
    predicate Alike(j: nat, k: nat)
      requires j < |links| && k < |links|
    {
      Delay(j) == Delay(k) && links[j].model == links[k].model
    }

    /** The first folded link of its kind: it names the clone. */
    predicate Leader(k: nat)
      requires k < |links|
    {
      Folds(k) && forall j :: 0 <= j < k ==> !Alike(j, k)
    }

    function Name(k: nat): string
      requires k < |links|
    {
      naming(links[k].model, TxOffset(devices, links[k].from), links[k].propagation)
    }

    /** What link `k` should run. */
    function Want(k: nat): seq<ModelStep>
      requires k < |links| && Folds(k)
    {
      Delayed(models[links[k].model].chain, Delay(k))
    }

    function Key(k: nat): (real, string)
      requires k < |links|
    {
      (Delay(k), links[k].model)
    }

    ghost function LeaderOf(k: nat): (j: nat)
      requires k < |links| && Folds(k)
      ensures j <= k && Leader(j) && Alike(j, k) && Want(j) == Want(k)
      decreases k
    {
      if j :| 0 <= j < k && Alike(j, k) then
        LeaderOf(j)
      else k
    }
  }

  // ---- What the pass leaves behind ------------------------------------------------------------

  /** A model some leader before `k` put in place; the first with its name. */
  ghost predicate PutBy(t: Setup, k: nat, name: string, m: Model, j: nat)
    requires j < k <= |t.links|
  {
    && t.Leader(j) && t.Name(j) == name && m == Model(name, t.Want(j))
    && forall i :: 0 <= i < j && t.Leader(i) ==> t.Name(i) != name
  }

  ghost predicate ModelsOk(t: Setup, k: nat, ms: map<string, Model>)
    requires k <= |t.links|
  {
    && (forall m :: m in t.models ==> m in ms && ms[m] == t.models[m])
    && (forall m :: m in ms && m !in t.models ==> exists j :: 0 <= j < k && PutBy(t, k, m, ms[m], j))
    && forall j :: 0 <= j < k && t.Leader(j) ==> t.Name(j) in ms
  }

  ghost predicate ClonesOk(t: Setup, k: nat, f: Folding)
    requires k <= |t.links| && |f.names| == k
  {
    && (forall j :: 0 <= j < k && t.Folds(j) ==>
          t.Key(j) in f.clones && f.names[j] == f.clones[t.Key(j)] == t.Name(t.LeaderOf(j)))
    && (forall j :: 0 <= j < k && !t.Folds(j) ==> f.names[j] == t.links[j].model)
    && forall key :: key in f.clones ==> exists j :: 0 <= j < k && t.Folds(j) && t.Key(j) == key
  }

  lemma LeaderUnique(t: Setup, i: nat, j: nat)
    requires i < |t.links| && j < |t.links| && t.Leader(i) && t.Leader(j) && t.Alike(i, j)
    ensures i == j
  {
    assert t.Alike(j, i);
  }

  lemma {:induction false} FoldKeeps(t: Setup, k: nat)
    requires t.KnownBases() && k <= |t.links|
    ensures ModelsOk(t, k, t.After(k).models) && ClonesOk(t, k, t.After(k))
  {
    if k > 0 {
      FoldKeeps(t, k - 1);
      var n, f, f' := k - 1, t.After(k - 1), t.After(k);
      OneLink(t, n);
      hide *;
      ModelsStep(t, n, f, f');
      ClonesStep(t, n, f, f');
    }
  }

  lemma Known(t: Setup, n: nat, f: Folding)
    requires n < |t.links| && |f.names| == n && ClonesOk(t, n, f)
    ensures t.Leader(n) <==> t.Folds(n) && t.Key(n) !in f.clones
  {
    if t.Folds(n) && t.Key(n) in f.clones {
      var j :| 0 <= j < n && t.Folds(j) && t.Key(j) == t.Key(n);
      assert t.Alike(j, n);
    }
    if t.Folds(n) && !t.Leader(n) {
      var j :| 0 <= j < n && t.Alike(j, n);
      assert t.Key(j) in f.clones;
    }
  }

  /** One turn of the loop: a leader puts its clone in place unless the name is taken. */
  ghost predicate Turned(t: Setup, n: nat, f: Folding, f': Folding)
    requires n < |t.links|
  {
    if t.Leader(n) then
      && f'.models == (if t.Name(n) in f.models then f.models else f.models[t.Name(n) := Model(t.Name(n), t.Want(n))])
      && f'.clones == f.clones[t.Key(n) := t.Name(n)] && f'.names == f.names + [t.Name(n)]
    else
      && f'.models == f.models && f'.clones == f.clones
      && if t.Folds(n) then t.Key(n) in f.clones && f'.names == f.names + [f.clones[t.Key(n)]]
         else f'.names == f.names + [t.links[n].model]
  }

  lemma OneLink(t: Setup, n: nat)
    requires t.KnownBases() && n < |t.links| && ModelsOk(t, n, t.After(n).models) && ClonesOk(t, n, t.After(n))
    ensures Turned(t, n, t.After(n), t.After(n + 1))
  {
    hide *;
    Known(t, n, t.After(n));
    BaseKept(t, n, t.After(n).models);
    NextFolding(t, n);
    TurnsSo(t, n, t.After(n));
  }

  lemma NextFolding(t: Setup, n: nat)
    requires n < |t.links|
    ensures t.After(n + 1) == FoldLink(t.devices, t.naming, t.After(n), t.links[n])
  {
  }

  lemma BaseKept(t: Setup, n: nat, ms: map<string, Model>)
    requires t.KnownBases() && n < |t.links| && ModelsOk(t, n, ms)
    ensures t.Delay(n) == 0.0 || (t.links[n].model in t.models && t.links[n].model in ms && ms[t.links[n].model] == t.models[t.links[n].model])
  {
    assert t.Delay(n) == 0.0 || t.links[n].model in t.models;
    hide PutBy, Setup.Leader;
  }

  lemma TurnsSo(t: Setup, n: nat, f: Folding)
    requires n < |t.links| && |f.names| == n
    requires t.Leader(n) <==> t.Folds(n) && t.Key(n) !in f.clones
    requires t.Delay(n) == 0.0 ||
             (t.links[n].model in t.models && t.links[n].model in f.models && f.models[t.links[n].model] == t.models[t.links[n].model])
    ensures Turned(t, n, f, FoldLink(t.devices, t.naming, f, t.links[n]))
  {
    hide Delayed, Setup.Alike, Setup.Leader;
  }

  lemma ModelsStep(t: Setup, n: nat, f: Folding, f': Folding)
    requires n < |t.links| && ModelsOk(t, n, f.models) && Turned(t, n, f, f')
    ensures ModelsOk(t, n + 1, f'.models)
  {
    var k := n + 1;
    hide Setup.Leader, Setup.Want, Setup.Name;
    forall m | m in f'.models && m !in t.models
      ensures exists j :: 0 <= j < k && PutBy(t, k, m, f'.models[m], j)
    {
      NewModel(t, n, k, f, f', m);
    }
  }

  lemma NewModel(t: Setup, n: nat, k: nat, f: Folding, f': Folding, m: string)
    requires k == n + 1 && n < |t.links| && ModelsOk(t, n, f.models) && Turned(t, n, f, f') && m in f'.models && m !in t.models
    ensures exists j :: 0 <= j < k && PutBy(t, k, m, f'.models[m], j)
  {
    hide Setup.Leader, Setup.Want, Setup.Name;
    if m in f.models {
      var j :| 0 <= j < n && PutBy(t, n, m, f.models[m], j);
      assert PutBy(t, k, m, f'.models[m], j);
    } else {
      assert PutBy(t, k, m, f'.models[m], n);
    }
  }

  lemma LeaderFound(t: Setup, n: nat, f: Folding)
    requires n < |t.links| && |f.names| == n && ClonesOk(t, n, f) && t.Folds(n)
    ensures if t.Leader(n) then t.LeaderOf(n) == n
            else t.Key(n) in f.clones && f.clones[t.Key(n)] == t.Name(t.LeaderOf(n))
  {
    Known(t, n, f);
    if t.Leader(n) {
      assert t.Alike(n, n);
      LeaderUnique(t, n, t.LeaderOf(n));
    } else {
      var j :| 0 <= j < n && t.Folds(j) && t.Key(j) == t.Key(n);
      assert t.Alike(j, n) && t.Alike(t.LeaderOf(j), t.LeaderOf(n));
      LeaderUnique(t, t.LeaderOf(j), t.LeaderOf(n));
    }
  }

  lemma ClonesStep(t: Setup, n: nat, f: Folding, f': Folding)
    requires n < |t.links| && |f.names| == n && |f'.names| == n + 1 && ClonesOk(t, n, f) && Turned(t, n, f, f')
    ensures ClonesOk(t, n + 1, f')
  {
    hide Turned, Setup.Leader, Setup.Want, Setup.Name, Setup.Alike, Setup.LeaderOf, Setup.Folds, Setup.Key;
    Known(t, n, f);
    ClonesKeys(t, n, n + 1, f, f');
    forall j | 0 <= j < n + 1 && t.Folds(j)
      ensures t.Key(j) in f'.clones && f'.names[j] == f'.clones[t.Key(j)] == t.Name(t.LeaderOf(j))
    {
      if j < n {
        CloneStays(t, n, f, f', j);
      } else {
        CloneMade(t, n, f, f');
      }
    }
    forall j | 0 <= j < n + 1 && !t.Folds(j) ensures f'.names[j] == t.links[j].model {
      NameStays(t, n, f, f', j);
    }
  }

  lemma CloneStays(t: Setup, n: nat, f: Folding, f': Folding, j: nat)
    requires n < |t.links| && |f.names| == n && |f'.names| == n + 1 && ClonesOk(t, n, f) && Turned(t, n, f, f')
    requires t.Leader(n) <==> t.Folds(n) && t.Key(n) !in f.clones
    requires j < n && t.Folds(j)
    ensures t.Key(j) in f'.clones && f'.names[j] == f'.clones[t.Key(j)] == t.Name(t.LeaderOf(j))
  {
    hide Setup.Leader, Setup.Want, Setup.Name, Setup.Alike, Setup.LeaderOf;
  }

  lemma CloneMade(t: Setup, n: nat, f: Folding, f': Folding)
    requires n < |t.links| && |f.names| == n && |f'.names| == n + 1 && ClonesOk(t, n, f) && Turned(t, n, f, f') && t.Folds(n)
    ensures t.Key(n) in f'.clones && f'.names[n] == f'.clones[t.Key(n)] == t.Name(t.LeaderOf(n))
  {
    LeaderFound(t, n, f);
    hide Setup.Leader, Setup.Want, Setup.Name, Setup.Alike, Setup.LeaderOf, ClonesOk;
  }

  lemma NameStays(t: Setup, n: nat, f: Folding, f': Folding, j: nat)
    requires n < |t.links| && |f.names| == n && |f'.names| == n + 1 && ClonesOk(t, n, f) && Turned(t, n, f, f')
    requires j <= n && !t.Folds(j)
    ensures f'.names[j] == t.links[j].model
  {
    hide Setup.Want, Setup.Name, Setup.Alike, Setup.LeaderOf;
  }

  lemma ClonesKeys(t: Setup, n: nat, k: nat, f: Folding, f': Folding)
    requires n < |t.links| && k == n + 1 && |f.names| == n && ClonesOk(t, n, f) && Turned(t, n, f, f')
    requires t.Leader(n) ==> t.Folds(n)
    ensures forall key :: key in f'.clones ==> exists j :: 0 <= j < k && t.Folds(j) && t.Key(j) == key
  {
    hide Setup.Leader, Setup.Want, Setup.Name, Setup.Alike, Setup.LeaderOf;
    forall key | key in f'.clones ensures exists j :: 0 <= j < k && t.Folds(j) && t.Key(j) == key {
      if key in f.clones {
        var j :| 0 <= j < n && t.Folds(j) && t.Key(j) == key;
      } else {
        assert t.Folds(n) && t.Key(n) == key;
      }
    }
  }

  // ---- Exactly when every link gets its delay ----------------------------------------------------

  function Final(t: Setup): (f: Folding)
    ensures |f.names| == |t.links|
  {
    t.After(|t.links|)
  }

  /** Link `k` names a model with the chain it should run. */
  ghost predicate Served(t: Setup, k: nat)
    requires k < |t.links| && t.Folds(k)
  {
    var f := Final(t);
    f.names[k] in f.models && f.models[f.names[k]].chain == t.Want(k)
  }

  ghost predicate AllServed(t: Setup) {
    forall k :: 0 <= k < |t.links| && t.Folds(k) ==> Served(t, k)
  }

  /** No clone's name is taken by a configured model or an earlier clone with another chain. */
  ghost predicate Clean(t: Setup) {
    forall i :: 0 <= i < |t.links| && t.Leader(i) ==>
      && (t.Name(i) in t.models ==> t.models[t.Name(i)].chain == t.Want(i))
      && forall j :: 0 <= j < i && t.Leader(j) && t.Name(j) == t.Name(i) ==> t.Want(j) == t.Want(i)
  }

  lemma CleanServes(t: Setup, k: nat)
    requires t.KnownBases() && Clean(t) && k < |t.links| && t.Folds(k)
    ensures Served(t, k)
  {
    var n, f, r := |t.links|, Final(t), t.LeaderOf(k);
    FoldKeeps(t, n);
    var name := t.Name(r);
    assert f.names[k] == name;
    hide Final, Setup.Name, Setup.Leader, Setup.Folds, Setup.Alike, Setup.LeaderOf, Setup.Want, Setup.KnownBases, ClonesOk;
    assert name in f.models;
    if name !in t.models {
      var j :| 0 <= j < n && PutBy(t, n, name, f.models[name], j);
      PutFirst(t, n, name, f.models[name], j, r);
    }
  }

  lemma PutFirst(t: Setup, n: nat, name: string, m: Model, j: nat, r: nat)
    requires j < n <= |t.links| && PutBy(t, n, name, m, j) && Clean(t) && r < n && t.Leader(r) && t.Name(r) == name
    ensures m.chain == t.Want(r)
  {
    hide Setup.Leader, Setup.Name, Setup.Want;
    assert j <= r;
  }

  lemma ServedClean(t: Setup, i: nat)
    requires t.KnownBases() && AllServed(t) && i < |t.links| && t.Leader(i)
    ensures t.Name(i) in t.models ==> t.models[t.Name(i)].chain == t.Want(i)
    ensures forall j :: 0 <= j < i && t.Leader(j) && t.Name(j) == t.Name(i) ==> t.Want(j) == t.Want(i)
  {
    var n, f := |t.links|, Final(t);
    FoldKeeps(t, n);
    LeaderOwn(t, i);
    assert Served(t, i);
    forall j | 0 <= j < i && t.Leader(j) && t.Name(j) == t.Name(i) ensures t.Want(j) == t.Want(i) {
      LeaderOwn(t, j);
      assert Served(t, j);
    }
  }

  lemma LeaderOwn(t: Setup, i: nat)
    requires i < |t.links| && t.Leader(i)
    ensures t.LeaderOf(i) == i
  {
    assert t.Alike(i, i);
    LeaderUnique(t, i, t.LeaderOf(i));
  }

  /** Every delayed link ends up with its own delayed chain precisely when the clones' names
      do not collide. */
  lemma FoldExactly(t: Setup)
    requires t.KnownBases()
    ensures AllServed(t) <==> Clean(t)
  {
    if Clean(t) {
      forall k | 0 <= k < |t.links| && t.Folds(k) ensures Served(t, k) {
        CleanServes(t, k);
      }
    }
    if AllServed(t) {
      forall i | 0 <= i < |t.links| && t.Leader(i)
        ensures t.Name(i) in t.models ==> t.models[t.Name(i)].chain == t.Want(i)
        ensures forall j :: 0 <= j < i && t.Leader(j) && t.Name(j) == t.Name(i) ==> t.Want(j) == t.Want(i)
      {
        ServedClean(t, i);
      }
    }
  }

  /** Configured models stay as they are, undelayed links keep theirs, and links alike share
      one clone whatever the names. */
  lemma FoldLeavesAlone(t: Setup)
    requires t.KnownBases()
    ensures forall m :: m in t.models ==> m in Final(t).models && Final(t).models[m] == t.models[m]
    ensures forall k :: 0 <= k < |t.links| && t.Delay(k) == 0.0 ==> Final(t).names[k] == t.links[k].model
    ensures forall j, k :: 0 <= j < |t.links| && 0 <= k < |t.links| && t.Folds(j) && t.Folds(k) && t.Alike(j, k) ==>
              Final(t).names[j] == Final(t).names[k]
  {
    FoldKeeps(t, |t.links|);
  }

  /** Two delays that print alike: the second link silently gets the first one's. */
  lemma RoundedNamesCollide(naming: Naming, chain: seq<ModelStep>)
    requires naming("m", 0.0, 1234567.0) == naming("m", 0.0, 1234568.0)
    requires naming("m", 0.0, 1234567.0) != "m" && !Leads(chain)
    ensures var t := Setup([], [Link("a", "b", "m", 1234567.0), Link("a", "c", "m", 1234568.0)], map["m" := Model("m", chain)], naming);
      t.KnownBases() && t.Folds(0) && t.Folds(1) && !Served(t, 1) &&
      Final(t).names[1] in Final(t).models && Final(t).models[Final(t).names[1]].chain == t.Want(0)
  {
    var t := Setup([], [Link("a", "b", "m", 1234567.0), Link("a", "c", "m", 1234568.0)], map["m" := Model("m", chain)], naming);
    assert t.After(0) == Folding(t.models, map[], []);
    var clone := t.Name(0);
    assert t.After(1) == Folding(t.models[clone := Model(clone, t.Want(0))], map[t.Key(0) := clone], [clone]);
    assert t.After(2).names == [clone, clone] && t.After(2).models == t.After(1).models;
    assert t.Want(0)[0] != t.Want(1)[0];
  }
}
