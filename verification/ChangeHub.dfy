/** Which keys changed: told at once, or held until a transaction commits. */
module ChangeHub {
  import opened Common

  type Key = string

  /** What a task does: reports, and transactions around them, nested or not. */
  datatype Work = Report(key: Key) | Transaction(body: seq<Work>, commits: bool)

  /** Every key reported in `works`, whatever becomes of transactions in them:
      a nested one joins the outer one's keys. */
  function Reported(works: seq<Work>): set<Key> {
    if works == [] then {}
    else
      var last := works[|works| - 1];
      Reported(works[..|works| - 1]) + if last.Report? then {last.key} else Reported(last.body)
  }

  /** What is sent for `works` outside any transaction: a key reported is sent,
      a transaction's are sent together when it commits, and not at all when it
      does not. */
  function Sent(works: seq<Work>): seq<set<Key>> {
    if works == [] then []
    else
      var last := works[|works| - 1];
      Sent(works[..|works| - 1])
      + if last.Report? then [{last.key}] else if last.commits then [Reported(last.body)] else []
  }

  ghost predicate Once(keys: seq<Key>, of: set<Key>) {
    NoDup(keys) && Elements(keys) == of
  }

  /** `keys` are the keys of `batches`, batch by batch, each key of a batch once. */
  ghost predicate InBatches(keys: seq<Key>, batches: seq<set<Key>>)
    decreases |batches|
  {
    if batches == [] then keys == []
    else
      var before, last := batches[..|batches| - 1], batches[|batches| - 1];
      exists n :: 0 <= n <= |keys| && InBatches(keys[..n], before) && Once(keys[n..], last)
  }

  lemma OneMoreBatch(keys: seq<Key>, batches: seq<set<Key>>, more: seq<Key>, batch: set<Key>)
    requires InBatches(keys, batches) && Once(more, batch)
    ensures InBatches(keys + more, batches + [batch])
  {
    var all, every := keys + more, batches + [batch];
    assert all[..|keys|] == keys && all[|keys|..] == more && every[..|every| - 1] == batches;
  }

  lemma OnceMore(keys: seq<Key>, of: set<Key>, key: Key)
    requires Once(keys, of) && key !in of
    ensures Once(keys + [key], of + {key})
  {
    assert forall k :: k in keys <==> k in Elements(keys);
  }

  lemma OnceAlone(key: Key)
    ensures Once([key], {key})
  {
    assert forall k :: k in [key] <==> k == key;
  }

  class Hub {
    var sent: seq<Key>

    constructor ()
      ensures sent == []
    {
      sent := [];
    }

    method Send(key: Key)
      modifies this
      ensures sent == old(sent) + [key]
    {
      sent := sent + [key];
    }
  }

  class Task {
    const hub: Hub
    var pending: Option<set<Key>>

    constructor (hub: Hub)
      ensures this.hub == hub && pending == None
    {
      this.hub, pending := hub, None;
    }

    method Report(key: Key)
      modifies this, hub
      ensures old(pending).Some? ==> pending == Some(old(pending).value + {key}) && hub.sent == old(hub.sent)
      ensures old(pending).None? ==> pending == None && hub.sent == old(hub.sent) + [key]
    {
      if pending.Some? {
        pending := Some(pending.value + {key});
      } else {
        hub.Send(key);
      }
    }

    /** Each key once. */
    method SendAll(keys: set<Key>) returns (ghost order: seq<Key>)
      modifies hub
      ensures Once(order, keys) && hub.sent == old(hub.sent) + order
    {
      var rest := keys;
      order := [];
      while rest != {}
        invariant rest <= keys && Once(order, keys - rest) && hub.sent == old(hub.sent) + order
        decreases |rest|
      {
        var key :| key in rest;
        hub.Send(key);
        OnceMore(order, keys - rest, key);
        assert keys - rest + {key} == keys - (rest - {key});
        order := order + [key];
        rest := rest - {key};
      }
      assert keys - rest == keys;
    }

    /** `hold`, around a body that `commits` or fails. */
    method Hold(body: seq<Work>, commits: bool) returns (ghost keys: seq<Key>)
      modifies this, hub
      ensures old(pending).Some? ==>
        pending == Some(old(pending).value + Reported(body)) && hub.sent == old(hub.sent) && keys == []
      ensures old(pending).None? ==>
        pending == None && hub.sent == old(hub.sent) + keys
        && if commits then Once(keys, Reported(body)) else keys == []
      decreases body, 1
    {
      keys := [];
      if pending.Some? {
        var _ := Perform(body);
        return;
      }
      pending := Some({});
      var _ := Perform(body);
      var held := pending.value;
      pending := None;
      if commits {
        keys := SendAll(held);
      }
    }

    /** All of `works`, in order. */
    method Perform(works: seq<Work>) returns (ghost keys: seq<Key>)
      modifies this, hub
      ensures old(pending).Some? ==> pending == Some(old(pending).value + Reported(works)) && hub.sent == old(hub.sent)
      ensures old(pending).None? ==> pending == None && hub.sent == old(hub.sent) + keys && InBatches(keys, Sent(works))
      decreases works, 0
    {
      keys := [];
      var i := 0;
      assert works[..0] == [] && Reported([]) == {};
      assert pending.Some? ==> pending.value + {} == pending.value;
      while i < |works|
        invariant i <= |works|
        invariant old(pending).Some? ==>
          pending == Some(old(pending).value + Reported(works[..i])) && hub.sent == old(hub.sent)
        invariant old(pending).None? ==>
          pending == None && hub.sent == old(hub.sent) + keys && InBatches(keys, Sent(works[..i]))
      {
        assert works[..i + 1][..i] == works[..i];
        assert Sent(works[..i]) + [] == Sent(works[..i]);
        ghost var more: seq<Key>;
        ghost var now := if works[i].Report? then {works[i].key} else Reported(works[i].body);
        assert old(pending).Some? ==>
          old(pending).value + Reported(works[..i]) + now == old(pending).value + Reported(works[..i + 1]);
        if works[i].Report? {
          Report(works[i].key);
          more := [works[i].key];
          if old(pending).None? {
            OnceAlone(works[i].key);
            OneMoreBatch(keys, Sent(works[..i]), more, {works[i].key});
            keys := keys + more;
          }
        } else {
          more := Hold(works[i].body, works[i].commits);
          if old(pending).None? && works[i].commits {
            OneMoreBatch(keys, Sent(works[..i]), more, Reported(works[i].body));
            keys := keys + more;
          }
        }
        i := i + 1;
      }
      assert works[..i] == works;
    }
  }
}
