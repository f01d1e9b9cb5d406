/**
 * The server's two-way subscription index and trigger fan-out (subscription.go).
 *
 * Triggers look subscriptions up by key, connections by ID. Four operations
 * update both maps and the subscriptions' own key sets in place; coherence of
 * the three is what makes a trigger refresh exactly the right subscriptions.
 */
module SubscriptionIndex {
  import opened Common

  type Key = string

  // ---------------------------------------------------------------------------
  // Composite keys
  // ---------------------------------------------------------------------------

  const NUL: char := '\0'

  /** compositeKey: the parts joined by NUL characters. */
  function CompositeKey(parts: seq<string>): Key {
    if parts == [] then ""
    else if |parts| == 1 then parts[0]
    else parts[0] + [NUL] + CompositeKey(parts[1..])
  }

  ghost predicate NulFree(parts: seq<string>) { forall p :: p in parts ==> NUL !in p }

  /** What comes before the first NUL, and so the first part, can be read off the key. */
  lemma FirstPart(p: string, rest: string, q: string, rest': string)
    requires NUL !in p && NUL !in q && p + [NUL] + rest == q + [NUL] + rest'
    ensures p == q && rest == rest'
  {
    var k := p + [NUL] + rest;
    assert k[|p|] == NUL && k[|q|] == NUL;
    assert (forall i :: 0 <= i < |p| ==> k[i] == p[i]) && (forall i :: 0 <= i < |q| ==> k[i] == q[i]);
    assert |p| == |q|;
    assert p == k[..|p|] && q == k[..|q|];
    assert rest == k[|p| + 1..] && rest' == k[|q| + 1..];
  }

  lemma SeveralPartsHoldNul(parts: seq<string>)
    requires |parts| >= 2
    ensures NUL in CompositeKey(parts)
  {
    assert CompositeKey(parts)[|parts[0]|] == NUL;
  }

  /** On non-empty lists of NUL-free parts, two triggers name the same key exactly when their parts are equal. */
  lemma {:induction false} CompositeKeyInjective(a: seq<string>, b: seq<string>)
    requires NulFree(a) && NulFree(b) && a != [] && b != []
    ensures CompositeKey(a) == CompositeKey(b) <==> a == b
  {
    if |a| == 1 || |b| == 1 {
      if |a| >= 2 { SeveralPartsHoldNul(a); }
      if |b| >= 2 { SeveralPartsHoldNul(b); }
      assert a[0] in a && b[0] in b;
    } else {
      assert a[0] in a && b[0] in b;
      assert forall p :: p in a[1..] ==> p in a;
      assert forall p :: p in b[1..] ==> p in b;
      CompositeKeyInjective(a[1..], b[1..]);
      if CompositeKey(a) == CompositeKey(b) {
        FirstPart(a[0], CompositeKey(a[1..]), b[0], CompositeKey(b[1..]));
        assert a == [a[0]] + a[1..] && b == [b[0]] + b[1..];
      }
    }
  }

  /** With the empty list too, the only clash is between no part and one empty part. */
  lemma CompositeKeyClashes(a: seq<string>, b: seq<string>)
    requires NulFree(a) && NulFree(b)
    ensures CompositeKey(a) == CompositeKey(b) <==> a == b || (a in {[], [""]} && b in {[], [""]})
  {
    if a != [] && b != [] {
      CompositeKeyInjective(a, b);
    } else {
      if |a| >= 2 { SeveralPartsHoldNul(a); }
      if |b| >= 2 { SeveralPartsHoldNul(b); }
      assert |a| == 1 ==> a == [a[0]];
      assert |b| == 1 ==> b == [b[0]];
    }
  }

  /** The parts a key splits into at its NUL characters. */
  function Parts(k: Key): (ps: seq<string>)
    ensures ps != []
  {
    if k == "" then [""]
    else if k[0] == NUL then [""] + Parts(k[1..])
    else
      var ps := Parts(k[1..]);
      [[k[0]] + ps[0]] + ps[1..]
  }

  lemma JoinEmptyPart(ps: seq<string>)
    requires ps != [] && NulFree(ps)
    ensures NulFree([""] + ps) && CompositeKey([""] + ps) == [NUL] + CompositeKey(ps)
  {
    assert ([""] + ps)[1..] == ps;
    assert "" + [NUL] + CompositeKey(ps) == [NUL] + CompositeKey(ps);
  }

  lemma JoinLongerPart(c: char, ps: seq<string>)
    requires ps != [] && NulFree(ps) && c != NUL
    ensures var qs := [[c] + ps[0]] + ps[1..]; NulFree(qs) && CompositeKey(qs) == [c] + CompositeKey(ps)
  {
    var qs := [[c] + ps[0]] + ps[1..];
    assert qs[1..] == ps[1..];
    assert ps[0] in ps && forall p :: p in ps[1..] ==> p in ps;
    if |ps| > 1 {
      assert [c] + ps[0] + [NUL] + CompositeKey(ps[1..]) == [c] + (ps[0] + [NUL] + CompositeKey(ps[1..]));
    }
  }

  /** Splitting undoes joining the other way around: a key is the composite of its NUL-free parts. */
  lemma {:induction false} PartsJoin(k: Key)
    ensures NulFree(Parts(k)) && CompositeKey(Parts(k)) == k
  {
    if k != "" {
      PartsJoin(k[1..]);
      assert k == [k[0]] + k[1..];
      if k[0] == NUL { JoinEmptyPart(Parts(k[1..])); } else { JoinLongerPart(k[0], Parts(k[1..])); }
    }
  }

  /** The lists whose key no other list of NUL-free parts shares are exactly those that are NUL-free themselves. */
  lemma ClashesExactlyWithNul(a: seq<string>)
    requires a != []
    ensures NulFree(a) <==> forall b :: b != [] && NulFree(b) && CompositeKey(b) == CompositeKey(a) ==> b == a
  {
    if NulFree(a) {
      forall b | b != [] && NulFree(b) && CompositeKey(b) == CompositeKey(a) ensures b == a {
        CompositeKeyInjective(a, b);
      }
    } else {
      PartsJoin(CompositeKey(a));
      assert Parts(CompositeKey(a)) != a;
    }
  }

  /** Such a clash: one part that holds a NUL, and the two it splits into. */
  lemma NulInAPartClashes()
    ensures CompositeKey([['a', NUL, 'b']]) == CompositeKey([['a'], ['b']])
  {
    assert [['a'], ['b']][1..] == [['b']];
    assert CompositeKey([['b']]) == ['b'];
  }

  // ---------------------------------------------------------------------------
  // The index
  // ---------------------------------------------------------------------------

  class Subscription {
    const connId: nat
    const id: string
    var keys: set<Key>
    var params: string
    var wantsPatch: bool

    constructor (connId: nat, id: string, keys: set<Key>, params: string, wantsPatch: bool)
      ensures this.connId == connId && this.id == id && this.keys == keys
      ensures this.params == params && this.wantsPatch == wantsPatch
    {
      this.connId, this.id, this.keys, this.params, this.wantsPatch := connId, id, keys, params, wantsPatch;
    }
  }

  type ByKey = map<Key, set<Subscription>>

  function At(byKey: ByKey, k: Key): set<Subscription> { if k in byKey then byKey[k] else {} }

  ghost predicate NoneEmpty(byKey: ByKey) { forall k :: k in byKey ==> byKey[k] != {} }

  /** Unfiles sub under key, and drops the key if nothing is left under it. */
  function Unfile(byKey: ByKey, key: Key, sub: Subscription): (r: ByKey)
    ensures NoneEmpty(byKey) ==> NoneEmpty(r)
    ensures At(r, key) == At(byKey, key) - {sub}
    ensures forall k :: k != key ==> At(r, k) == At(byKey, k)
  {
    if key !in byKey then byKey
    else
      var left := byKey[key] - {sub};
      if left == {} then byKey - {key} else byKey[key := left]
  }

  /** Files sub under key. */
  function File(byKey: ByKey, key: Key, sub: Subscription): (r: ByKey)
    ensures NoneEmpty(byKey) ==> NoneEmpty(r)
    ensures At(r, key) == At(byKey, key) + {sub}
    ensures forall k :: k != key ==> At(r, k) == At(byKey, k)
  {
    byKey[key := At(byKey, key) + {sub}]
  }

  /** The subscriptions of every connection, by connection and ID. */
  type ByConn = map<nat, map<string, Subscription>>

  function SubsOf(byConn: ByConn, c: nat): map<string, Subscription> { if c in byConn then byConn[c] else map[] }

  ghost function Registered(byConn: ByConn): set<Subscription> {
    set c, i | c in byConn && i in byConn[c] :: byConn[c][i]
  }

  ghost predicate Filed(byConn: ByConn, maxSubs: nat) {
    && (forall c, i :: c in byConn && i in byConn[c] ==> byConn[c][i].connId == c && byConn[c][i].id == i)
    && (forall c :: c in byConn ==> byConn[c] != map[])
    && (maxSubs > 0 ==> forall c :: c in byConn ==> |byConn[c]| <= maxSubs)
  }

  /** What a linear scan finds for a key. */
  ghost function Scan(subs: set<Subscription>, k: Key): set<Subscription>
    reads subs
  {
    set s | s in subs && k in s.keys
  }

  /** The key index says of every key exactly what a scan of the registered subscriptions would. */
  ghost predicate Agrees(byKey: ByKey, subs: set<Subscription>)
    reads subs
  {
    forall k :: At(byKey, k) == Scan(subs, k)
  }

  /** byKey' is byKey with sub unfiled under keys, or filed under them. */
  ghost predicate Without(byKey': ByKey, byKey: ByKey, sub: Subscription, keys: set<Key>) {
    NoneEmpty(byKey') && forall k :: At(byKey', k) == At(byKey, k) - if k in keys then {sub} else {}
  }

  ghost predicate With(byKey': ByKey, byKey: ByKey, sub: Subscription, keys: set<Key>) {
    NoneEmpty(byKey') && forall k :: At(byKey', k) == At(byKey, k) + if k in keys then {sub} else {}
  }

  lemma AgreesWithout(byKey': ByKey, byKey: ByKey, sub: Subscription, subs: set<Subscription>)
    requires Agrees(byKey, subs) && Without(byKey', byKey, sub, sub.keys)
    ensures Agrees(byKey', subs - {sub})
  {
    forall k ensures At(byKey', k) == Scan(subs - {sub}, k) {
      assert At(byKey, k) == Scan(subs, k);
    }
  }

  lemma AgreesWith(byKey': ByKey, byKey: ByKey, sub: Subscription, subs: set<Subscription>)
    requires Agrees(byKey, subs) && With(byKey', byKey, sub, sub.keys)
    ensures Agrees(byKey', subs + {sub})
  {
    forall k ensures At(byKey', k) == Scan(subs + {sub}, k) {
      assert At(byKey, k) == Scan(subs, k);
    }
  }

  /** Filing sub in the place of another leaves the other's keys filed. */
  lemma AgreesReplacing(byKey': ByKey, byKey: ByKey, sub: Subscription, subs: set<Subscription>, replaced: Subscription)
    requires Agrees(byKey, subs) && With(byKey', byKey, sub, sub.keys)
    requires replaced in subs || replaced == sub
    ensures Agrees(byKey', subs - {replaced} + {sub}) <==> replaced == sub || replaced.keys == {}
  {
    var subs' := subs - {replaced} + {sub};
    forall k ensures At(byKey', k) == Scan(subs + {sub}, k) {
      assert At(byKey, k) == Scan(subs, k);
    }
    if replaced == sub {
      assert subs' == subs + {sub};
    } else if replaced.keys == {} {
      forall k ensures At(byKey', k) == Scan(subs', k) {
        assert At(byKey', k) == Scan(subs + {sub}, k);
      }
    } else {
      var k :| k in replaced.keys;
      assert At(byKey', k) == Scan(subs + {sub}, k) && replaced in At(byKey', k) && replaced !in Scan(subs', k);
    }
  }

  lemma WithoutStep(byKey': ByKey, byKey: ByKey, sub: Subscription, keys: set<Key>, key: Key)
    requires Without(byKey', byKey, sub, keys)
    ensures Without(Unfile(byKey', key, sub), byKey, sub, keys + {key})
  {
  }

  lemma WithStep(byKey': ByKey, byKey: ByKey, sub: Subscription, keys: set<Key>, key: Key)
    requires With(byKey', byKey, sub, keys)
    ensures With(File(byKey', key, sub), byKey, sub, keys + {key})
  {
  }

  /** Files sub under its connection. */
  function Enter(byConn: ByConn, sub: Subscription): ByConn {
    byConn[sub.connId := SubsOf(byConn, sub.connId)[sub.id := sub]]
  }

  /** Takes an ID out of a connection, and the connection out once it has none. */
  function Drop(byConn: ByConn, c: nat, i: string): ByConn {
    var left := SubsOf(byConn, c) - {i};
    if left == map[] then byConn - {c} else byConn[c := left]
  }

  ghost predicate Holds(byConn: ByConn, c: nat, i: string) { c in byConn && i in byConn[c] }

  lemma EnterStaysFiled(byConn: ByConn, maxSubs: nat, sub: Subscription)
    requires Filed(byConn, maxSubs)
    requires maxSubs > 0 && sub.id !in SubsOf(byConn, sub.connId) ==> |SubsOf(byConn, sub.connId)| < maxSubs
    ensures Filed(Enter(byConn, sub), maxSubs)
  {
    var before, after := SubsOf(byConn, sub.connId), SubsOf(Enter(byConn, sub), sub.connId);
    assert after.Keys == before.Keys + {sub.id};
    assert sub.id in before ==> after.Keys == before.Keys;
    assert |before.Keys| == |before| && |after.Keys| == |after|;
  }

  lemma EnterLeavesOthers(byConn: ByConn, sub: Subscription, s: Subscription)
    requires s in Registered(byConn)
    requires forall c, i :: Holds(byConn, c, i) && byConn[c][i] == s ==> c == s.connId && i == s.id
    requires (s.connId, s.id) != (sub.connId, sub.id)
    ensures s in Registered(Enter(byConn, sub))
  {
    var byConn' := Enter(byConn, sub);
    var c, i :| c in byConn && i in byConn[c] && byConn[c][i] == s;
    assert Holds(byConn, c, i);
    assert c in byConn' && i in byConn'[c] && byConn'[c][i] == s;
  }

  lemma EnterAddsOne(byConn: ByConn, sub: Subscription, s: Subscription)
    requires s in Registered(Enter(byConn, sub)) && s != sub
    ensures exists c, i :: Holds(byConn, c, i) && byConn[c][i] == s && (c, i) != (sub.connId, sub.id)
  {
    var byConn' := Enter(byConn, sub);
    var c, i :| c in byConn' && i in byConn'[c] && byConn'[c][i] == s;
    assert Holds(byConn, c, i) && byConn[c][i] == s;
  }

  /** Filing under a known connection and ID replaces what was there. */
  lemma EnterFiles(byConn: ByConn, maxSubs: nat, sub: Subscription)
    requires Filed(byConn, maxSubs) && Filed(Enter(byConn, sub), maxSubs)
    ensures var gone := if Holds(byConn, sub.connId, sub.id) then byConn[sub.connId][sub.id] else sub;
            Registered(Enter(byConn, sub)) == Registered(byConn) - {gone} + {sub}
  {
    var byConn' := Enter(byConn, sub);
    assert sub.connId in byConn' && sub.id in byConn'[sub.connId] && byConn'[sub.connId][sub.id] == sub;
    forall s | s in Registered(byConn) && (s.connId, s.id) != (sub.connId, sub.id) ensures s in Registered(byConn') {
      EnterLeavesOthers(byConn, sub, s);
    }
    forall s | s in Registered(byConn') && s != sub
      ensures s in Registered(byConn) && (s.connId, s.id) != (sub.connId, sub.id)
    {
      EnterAddsOne(byConn, sub, s);
    }
  }

  /** A filed subscription is found in one place only, so dropping entries drops exactly their subscriptions. */
  lemma RegisteredWithout(byConn: ByConn, byConn': ByConn, maxSubs: nat, gone: set<Subscription>)
    requires Filed(byConn, maxSubs)
    requires forall c, i :: Holds(byConn', c, i) <==> Holds(byConn, c, i) && byConn[c][i] !in gone
    requires forall c, i :: Holds(byConn', c, i) && Holds(byConn, c, i) ==> byConn'[c][i] == byConn[c][i]
    ensures Registered(byConn') == Registered(byConn) - gone
  {
    forall s | s in Registered(byConn) - gone ensures s in Registered(byConn') {
      var c, i :| c in byConn && i in byConn[c] && byConn[c][i] == s;
      assert Holds(byConn', c, i) && byConn'[c][i] == s;
    }
    forall s | s in Registered(byConn') ensures s in Registered(byConn) - gone {
      var c, i :| c in byConn' && i in byConn'[c] && byConn'[c][i] == s;
      assert Holds(byConn', c, i) && byConn[c][i] == s;
    }
  }

  lemma DropStaysFiled(byConn: ByConn, maxSubs: nat, c: nat, i: string)
    requires Filed(byConn, maxSubs) && Holds(byConn, c, i)
    ensures Filed(Drop(byConn, c, i), maxSubs)
  {
    assert (SubsOf(byConn, c) - {i}).Keys <= SubsOf(byConn, c).Keys;
    SubsetIsNoLarger((SubsOf(byConn, c) - {i}).Keys, SubsOf(byConn, c).Keys);
  }

  lemma DropHolds(byConn: ByConn, c: nat, i: string, c': nat, i': string)
    requires Holds(byConn, c, i)
    ensures Holds(Drop(byConn, c, i), c', i') <==> Holds(byConn, c', i') && (c', i') != (c, i)
    ensures Holds(Drop(byConn, c, i), c', i') ==> Drop(byConn, c, i)[c'][i'] == byConn[c'][i']
  {
    assert c' == c ==> (Holds(byConn, c', i') && i' != i <==> i' in SubsOf(byConn, c) - {i});
  }

  lemma DropFiles(byConn: ByConn, maxSubs: nat, c: nat, i: string)
    requires Filed(byConn, maxSubs) && Holds(byConn, c, i)
    ensures Filed(Drop(byConn, c, i), maxSubs) && !Holds(Drop(byConn, c, i), c, i)
    ensures Registered(Drop(byConn, c, i)) == Registered(byConn) - {byConn[c][i]}
  {
    var byConn', gone := Drop(byConn, c, i), {byConn[c][i]};
    DropStaysFiled(byConn, maxSubs, c, i);
    forall c', i'
      ensures Holds(byConn', c', i') <==> Holds(byConn, c', i') && byConn[c'][i'] !in gone
      ensures Holds(byConn', c', i') && Holds(byConn, c', i') ==> byConn'[c'][i'] == byConn[c'][i']
    {
      DropHolds(byConn, c, i, c', i');
    }
    DropHolds(byConn, c, i, c, i);
    RegisteredWithout(byConn, byConn', maxSubs, gone);
  }

  lemma DropConnFiles(byConn: ByConn, maxSubs: nat, c: nat, gone: set<Subscription>)
    requires Filed(byConn, maxSubs) && c in byConn
    requires gone == set i | i in byConn[c] :: byConn[c][i]
    ensures Filed(byConn - {c}, maxSubs) && Registered(byConn - {c}) == Registered(byConn) - gone
    ensures gone == set s | s in Registered(byConn) && s.connId == c
  {
    RegisteredWithout(byConn, byConn - {c}, maxSubs, gone);
  }

  /** One more of a connection's subscriptions unfiled by UnregisterConn's loop. */
  lemma AgreesWithoutOneMore(byKey': ByKey, byKey: ByKey, sub: Subscription, subs: set<Subscription>,
                             removed: set<Subscription>)
    requires Agrees(byKey, subs - removed) && Without(byKey', byKey, sub, sub.keys)
    ensures Agrees(byKey', subs - (removed + {sub}))
  {
    AgreesWithout(byKey', byKey, sub, subs - removed);
    assert subs - removed - {sub} == subs - (removed + {sub});
  }

  datatype Refusal = Accepted | ConnectionClosed | LimitReached

  class SubscriptionManager {
    var byKey: ByKey
    var byConn: ByConn
    const maxSubs: nat  // MaxSubscriptions, 0 for no cap

    ghost function Subs(): set<Subscription>
      reads this
    {
      Registered(byConn)
    }

    ghost predicate Coherent()
      reads this, Subs()
    {
      Filed(byConn, maxSubs) && NoneEmpty(byKey) && Agrees(byKey, Subs())
    }

    constructor (maxSubs: nat)
      ensures Coherent() && Subs() == {} && this.maxSubs == maxSubs
    {
      this.maxSubs := maxSubs;
      byKey, byConn := map[], map[];
    }

    predicate Has(connId: nat, id: string)
      reads this
    {
      connId in byConn && id in byConn[connId]
    }

    /** The loop that unfiles sub under each of its keys, dropping sets it empties. */
    method RemoveFromKeys(sub: Subscription)
      requires NoneEmpty(byKey)
      modifies this`byKey
      ensures Without(byKey, old(byKey), sub, sub.keys)
    {
      var rest := sub.keys;
      ghost var done: set<Key> := {};
      while rest != {}
        invariant done + rest == sub.keys && Without(byKey, old(byKey), sub, done)
        decreases |rest|
      {
        var key :| key in rest;
        WithoutStep(byKey, old(byKey), sub, done, key);
        byKey := Unfile(byKey, key, sub);
        rest, done := rest - {key}, done + {key};
      }
    }

    /** The loop that files sub under each of its keys. */
    method AddToKeys(sub: Subscription)
      requires NoneEmpty(byKey)
      modifies this`byKey
      ensures With(byKey, old(byKey), sub, sub.keys)
    {
      var rest := sub.keys;
      ghost var done: set<Key> := {};
      while rest != {}
        invariant done + rest == sub.keys && With(byKey, old(byKey), sub, done)
        decreases |rest|
      {
        var key :| key in rest;
        WithStep(byKey, old(byKey), sub, done, key);
        byKey := File(byKey, key, sub);
        rest, done := rest - {key}, done + {key};
      }
    }

    /** The subscription sub would replace, and itself if it would replace none. */
    function Replaced(sub: Subscription): Subscription
      reads this
    {
      if Has(sub.connId, sub.id) then byConn[sub.connId][sub.id] else sub
    }

    /**
     * register. A new ID is refused at the cap, a known one never is. The index stays coherent exactly if no
     * subscription is replaced, or one that was filed under no key: register does not unfile what it replaces.
     */
    method Register(sub: Subscription, connClosed: bool) returns (refusal: Refusal)
      requires Coherent()
      modifies this
      ensures refusal == (if connClosed then ConnectionClosed
                          else if maxSubs > 0 && !old(Has(sub.connId, sub.id))
                              && |SubsOf(old(byConn), sub.connId)| >= maxSubs
                          then LimitReached
                          else Accepted)
      ensures refusal.Accepted? ==> Has(sub.connId, sub.id) && byConn[sub.connId][sub.id] == sub
      ensures refusal.Accepted? ==> Subs() == old(Subs()) - {old(Replaced(sub))} + {sub}
      ensures refusal.Accepted? ==> (Coherent() <==> old(Replaced(sub)) == sub || old(Replaced(sub)).keys == {})
      ensures !refusal.Accepted? ==> Coherent() && byConn == old(byConn) && byKey == old(byKey)
    {
      if connClosed { return ConnectionClosed; }
      var existing := SubsOf(byConn, sub.connId);
      if maxSubs > 0 && sub.id !in existing && |existing| >= maxSubs { return LimitReached; }
      ghost var replaced := Replaced(sub);
      EnterStaysFiled(byConn, maxSubs, sub);
      EnterFiles(byConn, maxSubs, sub);
      byConn := Enter(byConn, sub);
      AddToKeys(sub);
      AgreesReplacing(byKey, old(byKey), sub, old(Subs()), replaced);
      refusal := Accepted;
    }

    method Unregister(connId: nat, id: string)
      requires Coherent()
      modifies this
      ensures Coherent()
      ensures Subs() == old(Subs()) - if old(Has(connId, id)) then {old(byConn)[connId][id]} else {}
      ensures !Has(connId, id)
    {
      if connId !in byConn || id !in byConn[connId] { return; }
      var sub := byConn[connId][id];
      RemoveFromKeys(sub);
      AgreesWithout(byKey, old(byKey), sub, Subs());
      DropFiles(byConn, maxSubs, connId, id);
      byConn := Drop(byConn, connId, id);
    }

    /** unregisterConn's loop: unfiles every one of a connection's subscriptions. */
    method RemoveAll(connSubs: map<string, Subscription>, ghost subs: set<Subscription>)
      returns (removed: set<Subscription>)
      requires NoneEmpty(byKey) && Agrees(byKey, subs)
      modifies this`byKey
      ensures removed == set i | i in connSubs :: connSubs[i]
      ensures NoneEmpty(byKey) && Agrees(byKey, subs - removed)
    {
      var rest := connSubs.Keys;
      removed := {};
      while rest != {}
        invariant NoneEmpty(byKey) && rest <= connSubs.Keys
        invariant removed == set i | i in connSubs && i !in rest :: connSubs[i]
        invariant Agrees(byKey, subs - removed)
        decreases |rest|
      {
        var i :| i in rest;
        var sub := connSubs[i];
        ghost var before := byKey;
        RemoveFromKeys(sub);
        AgreesWithoutOneMore(byKey, before, sub, subs, removed);
        removed := removed + {sub};
        rest := rest - {i};
      }
    }

    method UnregisterConn(connId: nat) returns (removed: set<Subscription>)
      requires Coherent()
      modifies this
      ensures Coherent()
      ensures connId !in byConn && Subs() == old(Subs()) - removed
      ensures removed == set s | s in old(Subs()) && s.connId == connId
    {
      if connId !in byConn { return {}; }
      removed := RemoveAll(byConn[connId], Subs());
      DropConnFiles(byConn, maxSubs, connId, removed);
      byConn := byConn - {connId};
    }

    /** The keys of a subscription that is filed nowhere do not matter to the index. */
    method SetKeys(sub: Subscription, newKeys: set<Key>, ghost index: ByKey, ghost others: set<Subscription>)
      requires sub !in others && Agrees(index, others)
      modifies sub`keys
      ensures sub.keys == newKeys && Agrees(index, others)
    {
      sub.keys := newKeys;
      assert forall k :: Scan(others, k) == old(Scan(others, k));
    }

    method UpdateKeys(connId: nat, id: string, newKeys: set<Key>)
      requires Coherent()
      modifies this, Subs()
      ensures Coherent() && byConn == old(byConn)
      ensures Has(connId, id) ==> byConn[connId][id].keys == newKeys
      ensures forall s :: s in Subs() && (s.connId, s.id) != (connId, id) ==> unchanged(s)
    {
      if connId !in byConn || id !in byConn[connId] { return; }
      var sub := byConn[connId][id];
      RemoveFromKeys(sub);
      AgreesWithout(byKey, old(byKey), sub, Subs());
      ghost var others, before := Subs() - {sub}, byKey;
      SetKeys(sub, newKeys, before, others);
      AddToKeys(sub);
      AgreesWith(byKey, before, sub, others);
      assert others + {sub} == Subs();
    }

    method GetSubscriptionsForKey(key: Key) returns (result: seq<Subscription>)
      requires Coherent()
      ensures forall s :: s in result <==> s in Subs() && key in s.keys
      ensures forall i, j :: 0 <= i < j < |result| ==> result[i] != result[j]
    {
      result := [];
      var rest := At(byKey, key);
      while rest != {}
        invariant rest <= At(byKey, key)
        invariant forall s :: s in result <==> s in At(byKey, key) - rest
        invariant forall i, j :: 0 <= i < j < |result| ==> result[i] != result[j]
        decreases |rest|
      {
        var s :| s in rest;
        assert s !in result;
        result := result + [s];
        rest := rest - {s};
      }
    }

    /** processRefreshQueue, while the index stays as it is: whom the queued keys refresh, each once. */
    method ToRefresh(keys: seq<Key>) returns (toRefresh: seq<Subscription>)
      requires Coherent()
      ensures forall s :: s in toRefresh <==> s in Subs() && exists k :: k in keys && k in s.keys
      ensures forall i, j :: 0 <= i < j < |toRefresh| ==> toRefresh[i] != toRefresh[j]
    {
      toRefresh := [];
      for n := 0 to |keys|
        invariant forall s :: s in toRefresh <==> s in Subs() && exists k :: k in keys[..n] && k in s.keys
        invariant forall i, j :: 0 <= i < j < |toRefresh| ==> toRefresh[i] != toRefresh[j]
      {
        var subs := GetSubscriptionsForKey(keys[n]);
        toRefresh := Merge(toRefresh, subs);
        assert keys[..n + 1] == keys[..n] + [keys[n]];
      }
      assert keys[..|keys|] == keys;
    }
  }

  /** processRefreshQueue's inner loop: appends what has not been seen yet. */
  method Merge(toRefresh0: seq<Subscription>, subs: seq<Subscription>) returns (toRefresh: seq<Subscription>)
    requires forall i, j :: 0 <= i < j < |toRefresh0| ==> toRefresh0[i] != toRefresh0[j]
    ensures forall s :: s in toRefresh <==> s in toRefresh0 || s in subs
    ensures forall i, j :: 0 <= i < j < |toRefresh| ==> toRefresh[i] != toRefresh[j]
  {
    toRefresh := toRefresh0;
    var seen := set s | s in toRefresh0;
    for m := 0 to |subs|
      invariant forall s :: s in seen <==> s in toRefresh
      invariant forall s :: s in toRefresh <==> s in toRefresh0 || s in subs[..m]
      invariant forall i, j :: 0 <= i < j < |toRefresh| ==> toRefresh[i] != toRefresh[j]
    {
      if subs[m] !in seen {
        seen := seen + {subs[m]};
        toRefresh := toRefresh + [subs[m]];
      }
    }
    assert subs[..|subs|] == subs;
  }

  /**
   * processRefreshQueue, while the index changes between its lookups, one of which is made for each key under the lock:
   * what is launched is what some lookup found at its own moment, each once.
   */
  method FanOut(lookups: seq<seq<Subscription>>) returns (toRefresh: seq<Subscription>)
    ensures forall s :: s in toRefresh <==> exists n :: 0 <= n < |lookups| && s in lookups[n]
    ensures forall i, j :: 0 <= i < j < |toRefresh| ==> toRefresh[i] != toRefresh[j]
  {
    toRefresh := [];
    for n := 0 to |lookups|
      invariant forall s :: s in toRefresh <==> exists m :: 0 <= m < n && s in lookups[m]
      invariant forall i, j :: 0 <= i < j < |toRefresh| ==> toRefresh[i] != toRefresh[j]
    {
      toRefresh := Merge(toRefresh, lookups[n]);
    }
  }
}
