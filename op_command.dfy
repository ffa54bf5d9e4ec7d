// The `/op` command: each target gets the lower of the configured operator
// level and the sender's own, recorded in the operator list
// (pumpkin/src/command/commands/op.rs).

module OpCommand {
  import opened Common

  /** An entry of the operator list (`pumpkin_config::op::Op`). */
  datatype Op = Op(uuid: nat, name: string, level: nat, bypassesPlayerLimit: bool)

  /** A player named by the `targets` argument. */
  datatype Target = Target(uuid: nat, name: string)

  /** The messages the sender receives. */
  datatype Message = Failed | Succeeded(name: string)

  datatype CommandResult = Ok | InvalidConsumption(argument: string)

  const TargetsArgument: string := "targets"

  /** The index of the first entry for `uuid`, or `|ops|` when there is none. */
  function FirstWithUuid(ops: seq<Op>, uuid: nat): (i: nat)
    ensures i <= |ops|
    ensures forall j :: 0 <= j < i ==> ops[j].uuid != uuid
    ensures i < |ops| ==> ops[i].uuid == uuid
    decreases |ops|
  {
    if ops == [] then 0
    else if ops[0].uuid == uuid then 0
    else 1 + FirstWithUuid(ops[1..], uuid)
  }

  /**
   * The operator list after granting `level` to a player: the first entry
   * with its uuid gets the level in place and nothing else changes; without
   * one, a new entry is appended at the end.
   */
  function Upsert(ops: seq<Op>, t: Target, level: nat): (r: seq<Op>)
    ensures var i := FirstWithUuid(ops, t.uuid);
            i < |ops| ==> |r| == |ops| && r[i] == ops[i].(level := level)
                          && forall j :: 0 <= j < |ops| && j != i ==> r[j] == ops[j]
    ensures (forall j :: 0 <= j < |ops| ==> ops[j].uuid != t.uuid) ==> r == ops + [Op(t.uuid, t.name, level, false)]
    ensures exists j :: 0 <= j < |r| && r[j].uuid == t.uuid && r[j].level == level
  {
    var i := FirstWithUuid(ops, t.uuid);
    if i < |ops| then ops[i := ops[i].(level := level)]
    else
      var r := ops + [Op(t.uuid, t.name, level, false)];
      assert r[|ops|].uuid == t.uuid;
      r
  }

  /** No two entries share a uuid. */
  predicate UniqueUuids(ops: seq<Op>)
  {
    forall i, j :: 0 <= i < j < |ops| ==> ops[i].uuid != ops[j].uuid
  }

  /** Upserting keeps the uuids unique, and the one entry for the player then holds the new level. */
  lemma UpsertKeepsUnique(ops: seq<Op>, t: Target, level: nat)
    requires UniqueUuids(ops)
    ensures UniqueUuids(Upsert(ops, t, level))
    ensures forall j :: 0 <= j < |Upsert(ops, t, level)| && Upsert(ops, t, level)[j].uuid == t.uuid ==>
              Upsert(ops, t, level)[j].level == level
  {
    var r := Upsert(ops, t, level);
    var i := FirstWithUuid(ops, t.uuid);
    if i < |ops| {
      forall j | 0 <= j < |r| && r[j].uuid == t.uuid ensures j == i {
      }
    }
  }

  /** A player's permission level; players not in the map have level 0. */
  function LevelOf(levels: map<nat, nat>, uuid: nat): nat
  {
    if uuid in levels then levels[uuid] else 0
  }

  /** The state `/op` changes: the operator list, the players' levels and the sender's messages. */
  datatype OpState = OpState(ops: seq<Op>, levels: map<nat, nat>, messages: seq<Message>)

  /**
   * One target: a player already at `level` only earns a failure message;
   * any other is recorded in the list, raised or lowered to `level`, and
   * announced.
   */
  function GrantOne(s: OpState, t: Target, level: nat): (r: OpState)
    ensures LevelOf(r.levels, t.uuid) == level
    ensures LevelOf(s.levels, t.uuid) == level ==> r.ops == s.ops && r.levels == s.levels && r.messages == s.messages + [Failed]
    ensures LevelOf(s.levels, t.uuid) != level ==> r.ops == Upsert(s.ops, t, level) && r.messages == s.messages + [Succeeded(t.name)]
    ensures forall u :: u != t.uuid ==> LevelOf(r.levels, u) == LevelOf(s.levels, u)
  {
    if LevelOf(s.levels, t.uuid) == level then s.(messages := s.messages + [Failed])
    else OpState(Upsert(s.ops, t, level), s.levels[t.uuid := level], s.messages + [Succeeded(t.name)])
  }

  /** The targets processed in order. */
  function GrantAll(s: OpState, targets: seq<Target>, level: nat): OpState
    decreases |targets|
  {
    if targets == [] then s
    else GrantOne(GrantAll(s, targets[..|targets| - 1], level), targets[|targets| - 1], level)
  }

  /** After the command every target, listed or not before, holds exactly the granted level. */
  lemma {:induction false} EveryTargetGranted(s: OpState, targets: seq<Target>, level: nat)
    ensures forall t :: t in targets ==> LevelOf(GrantAll(s, targets, level).levels, t.uuid) == level
    ensures forall u :: (forall t :: t in targets ==> t.uuid != u) ==>
              LevelOf(GrantAll(s, targets, level).levels, u) == LevelOf(s.levels, u)
    ensures |GrantAll(s, targets, level).messages| == |s.messages| + |targets|
    decreases |targets|
  {
    if targets != [] {
      var front := targets[..|targets| - 1];
      EveryTargetGranted(s, front, level);
      forall t | t in targets ensures LevelOf(GrantAll(s, targets, level).levels, t.uuid) == level {
        if t != targets[|targets| - 1] {
          assert t in front;
        }
      }
      forall u | (forall t :: t in targets ==> t.uuid != u)
        ensures LevelOf(GrantAll(s, targets, level).levels, u) == LevelOf(s.levels, u)
      {
        assert forall t :: t in front ==> t in targets;
        assert targets[|targets| - 1] in targets;
      }
    }
  }

  /** The operator list never loses an entry and gains at most one per target. */
  lemma {:induction false} OpsGrowByAtMostTargets(s: OpState, targets: seq<Target>, level: nat)
    ensures |s.ops| <= |GrantAll(s, targets, level).ops| <= |s.ops| + |targets|
    ensures UniqueUuids(s.ops) ==> UniqueUuids(GrantAll(s, targets, level).ops)
    decreases |targets|
  {
    if targets != [] {
      var front := targets[..|targets| - 1];
      OpsGrowByAtMostTargets(s, front, level);
      var mid := GrantAll(s, front, level);
      if UniqueUuids(s.ops) {
        UpsertKeepsUnique(mid.ops, targets[|targets| - 1], level);
      }
    }
  }

  /** The server state `/op` works on. */
  class Server {
    var ops: seq<Op>
    var levels: map<nat, nat>
    var messages: seq<Message>

    function State(): OpState
      reads this
    {
      OpState(ops, levels, messages)
    }

    constructor (ops: seq<Op>, levels: map<nat, nat>)
      ensures State() == OpState(ops, levels, [])
    {
      this.ops := ops;
      this.levels := levels;
      messages := [];
    }

    /** One iteration of the target loop. */
    method GrantTarget(t: Target, level: nat)
      modifies this
      ensures State() == GrantOne(old(State()), t, level)
    {
      if LevelOf(levels, t.uuid) == level {
        messages := messages + [Failed];
        return;
      }
      var i := FirstWithUuid(ops, t.uuid);
      if i < |ops| {
        ops := ops[i := ops[i].(level := level)];
      } else {
        ops := ops + [Op(t.uuid, t.name, level, false)];
      }
      levels := levels[t.uuid := level];
      messages := messages + [Succeeded(t.name)];
    }

    /**
     * `execute`: without a `targets` argument the command fails and nothing
     * changes; otherwise every target is granted min(configured level,
     * sender's level).
     */
    method Execute(targets: Option<seq<Target>>, configuredLevel: nat, senderLevel: nat) returns (result: CommandResult)
      modifies this
      ensures targets.None? ==> result == InvalidConsumption(TargetsArgument) && State() == old(State())
      ensures targets.Some? ==> result == Ok
                                && State() == GrantAll(old(State()), targets.value, Min(configuredLevel, senderLevel))
    {
      if targets.None? {
        return InvalidConsumption(TargetsArgument);
      }
      var ts := targets.value;
      var start := State();
      for i := 0 to |ts|
        invariant State() == GrantAll(start, ts[..i], Min(configuredLevel, senderLevel))
      {
        var newLevel := Min(configuredLevel, senderLevel);
        GrantTarget(ts[i], newLevel);
        assert ts[..i + 1][..i] == ts[..i];
      }
      assert ts[..|ts|] == ts;
      return Ok;
    }
  }
}
