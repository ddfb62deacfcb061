/** The sets that keep an app or plugin from being reported twice in a turn: bounded, and emptied when full. */
module Dedupe {
  import opened Options

  const MAX_KEYS: nat := 4096

  /** Turn and connector, or turn and plugin. */
  type Key = (string, string)

  // ---------------------------------------------------------------------------------------------
  // A sequence of calls on one set
  // ---------------------------------------------------------------------------------------------

  function Room(keys: set<Key>): set<Key> {
    if |keys| >= MAX_KEYS then {} else keys
  }

  function KeysAfter(calls: seq<Key>): set<Key> {
    if calls == [] then {} else Room(KeysAfter(calls[..|calls| - 1])) + {calls[|calls| - 1]}
  }

  /** The call empties the set first. */
  predicate ClearsAt(calls: seq<Key>, i: nat)
    requires i < |calls|
  {
    |KeysAfter(calls[..i])| >= MAX_KEYS
  }

  /** The call is told that its key is new. */
  predicate AcceptedAt(calls: seq<Key>, i: nat)
    requires i < |calls|
  {
    calls[i] !in Room(KeysAfter(calls[..i]))
  }

  function Clears(calls: seq<Key>): nat {
    if calls == [] then 0
    else Clears(calls[..|calls| - 1]) + if ClearsAt(calls, |calls| - 1) then 1 else 0
  }

  function Acceptances(calls: seq<Key>): nat {
    if calls == [] then 0
    else Acceptances(calls[..|calls| - 1]) + if AcceptedAt(calls, |calls| - 1) then 1 else 0
  }

  function AcceptancesOf(calls: seq<Key>, key: Key): nat {
    if calls == [] then 0
    else
      var n := |calls| - 1;
      AcceptancesOf(calls[..n], key) + if calls[n] == key && AcceptedAt(calls, n) then 1 else 0
  }

  // ---------------------------------------------------------------------------------------------
  // What the set guarantees
  // ---------------------------------------------------------------------------------------------

  /** The set stays bounded, and every acceptance is in it or was swept out by a clear. */
  lemma {:induction false} AcceptancesConserved(calls: seq<Key>)
    ensures |KeysAfter(calls)| <= 4096
    ensures Acceptances(calls) == 4096 * Clears(calls) + |KeysAfter(calls)|
  {
    if calls != [] {
      var n := |calls| - 1;
      AcceptancesConserved(calls[..n]);
      var keys := Room(KeysAfter(calls[..n]));
      if calls[n] in keys {
        assert keys + {calls[n]} == keys;
      }
    }
  }

  lemma {:induction false} AtMostOncePerClear(calls: seq<Key>, key: Key)
    ensures AcceptancesOf(calls, key) <= Clears(calls) + if key in KeysAfter(calls) then 1 else 0
  {
    if calls != [] {
      AtMostOncePerClear(calls[..|calls| - 1], key);
    }
  }

  /** After T acceptances in all, no key was accepted more than 1 + (T - 1) / 4096 times. */
  lemma RepeatBound(calls: seq<Key>, key: Key)
    ensures Acceptances(calls) == 0 ==> AcceptancesOf(calls, key) == 0
    ensures Acceptances(calls) > 0 ==> AcceptancesOf(calls, key) <= 1 + (Acceptances(calls) - 1) / 4096
  {
    AcceptancesConserved(calls);
    AtMostOncePerClear(calls, key);
    var c, k := Clears(calls), |KeysAfter(calls)|;
    if key in KeysAfter(calls) {
      assert KeysAfter(calls) != {};
      assert Acceptances(calls) - 1 == MAX_KEYS * c + (k - 1);
    } else if c > 0 {
      assert Acceptances(calls) - 1 == MAX_KEYS * (c - 1) + (MAX_KEYS - 1 + k);
    }
  }

  /** The key was used at `j` and nothing was cleared after that. */
  ghost predicate Remembered(calls: seq<Key>, key: Key, j: nat)
    requires j < |calls|
  {
    calls[j] == key && forall m :: j < m < |calls| ==> !ClearsAt(calls, m)
  }

  lemma PrefixCalls(calls: seq<Key>, m: nat)
    requires m < |calls| - 1
    ensures calls[..|calls| - 1][..m] == calls[..m] && calls[..|calls| - 1][m] == calls[m]
  {
  }

  lemma {:induction false} KeysAreRemembered(calls: seq<Key>, key: Key)
    ensures key in KeysAfter(calls) <==> exists j :: 0 <= j < |calls| && Remembered(calls, key, j)
  {
    if calls != [] {
      var n := |calls| - 1;
      KeysAreRemembered(calls[..n], key);
      RememberedOneMore(calls, key);
    }
  }

  lemma RememberedOneMore(calls: seq<Key>, key: Key)
    requires calls != []
    ensures var n := |calls| - 1;
      (exists j :: 0 <= j < |calls| && Remembered(calls, key, j)) <==>
      calls[n] == key || (!ClearsAt(calls, n) && exists j :: 0 <= j < n && Remembered(calls[..n], key, j))
  {
    var n := |calls| - 1;
    forall m: nat | m < n ensures ClearsAt(calls[..n], m) <==> ClearsAt(calls, m) {
      PrefixCalls(calls, m);
    }
    hide KeysAfter, ClearsAt;
    if calls[n] == key {
      assert Remembered(calls, key, n);
    }
    forall j | 0 <= j < n
      ensures Remembered(calls, key, j) <==> !ClearsAt(calls, n) && Remembered(calls[..n], key, j)
    {
    }
    if !ClearsAt(calls, n) && exists j :: 0 <= j < n && Remembered(calls[..n], key, j) {
      var j :| 0 <= j < n && Remembered(calls[..n], key, j);
      assert Remembered(calls, key, j);
    }
  }

  /** A call is accepted exactly when its key was not used since the set was last emptied. */
  lemma AcceptedExactly(calls: seq<Key>, i: nat)
    requires i < |calls|
    ensures AcceptedAt(calls, i) <==>
      ClearsAt(calls, i) || forall j :: 0 <= j < i ==> !Remembered(calls[..i], calls[i], j)
  {
    KeysAreRemembered(calls[..i], calls[i]);
  }

  /** Between two acceptances of a key the set was emptied. */
  lemma ClearBetween(calls: seq<Key>, i: nat, j: nat) returns (m: nat)
    requires i < j < |calls| && calls[i] == calls[j] && AcceptedAt(calls, j)
    ensures i < m <= j && ClearsAt(calls, m)
  {
    AcceptedExactly(calls, j);
    if ClearsAt(calls, j) {
      m := j;
    } else {
      assert !Remembered(calls[..j], calls[j], i);
      var k :| i < k < j && ClearsAt(calls[..j], k);
      assert calls[..j][..k] == calls[..k];
      m := k;
    }
  }

  // ---------------------------------------------------------------------------------------------
  // The queue's two sets
  // ---------------------------------------------------------------------------------------------

  class Queue {
    var appKeys: set<Key>
    var pluginKeys: set<Key>
    ghost var appCalls: seq<Key>
    ghost var pluginCalls: seq<Key>

    ghost predicate Valid()
      reads this
    {
      appKeys == KeysAfter(appCalls) && pluginKeys == KeysAfter(pluginCalls)
    }

    constructor ()
      ensures Valid() && appCalls == [] && pluginCalls == []
    {
      appKeys, pluginKeys := {}, {};
      appCalls, pluginCalls := [], [];
    }

    /** An app without a connector is always reported and leaves no trace. */
    method ShouldEnqueueAppUsed(turn: string, connector: Option<string>) returns (isNew: bool)
      requires Valid()
      modifies this`appKeys, this`appCalls
      ensures Valid()
      ensures connector.None? ==> isNew && appCalls == old(appCalls)
      ensures connector.Some? ==>
        && appCalls == old(appCalls) + [(turn, connector.value)]
        && isNew == AcceptedAt(appCalls, |appCalls| - 1)
    {
      if connector.None? {
        return true;
      }
      if |appKeys| >= MAX_KEYS {
        appKeys := {};
      }
      var key := (turn, connector.value);
      isNew := key !in appKeys;
      appKeys := appKeys + {key};
      appCalls := appCalls + [key];
      assert appCalls[..|appCalls| - 1] == old(appCalls);
    }

    method ShouldEnqueuePluginUsed(turn: string, plugin: string) returns (isNew: bool)
      requires Valid()
      modifies this`pluginKeys, this`pluginCalls
      ensures Valid() && pluginCalls == old(pluginCalls) + [(turn, plugin)]
      ensures isNew == AcceptedAt(pluginCalls, |pluginCalls| - 1)
    {
      if |pluginKeys| >= MAX_KEYS {
        pluginKeys := {};
      }
      isNew := (turn, plugin) !in pluginKeys;
      pluginKeys := pluginKeys + {(turn, plugin)};
      pluginCalls := pluginCalls + [(turn, plugin)];
      assert pluginCalls[..|pluginCalls| - 1] == old(pluginCalls);
    }
  }
}
