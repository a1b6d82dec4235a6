/**
 * The command registry: invokes are filed under their (optionally
 * lower-cased) text, a clash is a configuration conflict, and lookups fold
 * the invoke the same way registration did.
 */
module Registry {
  import opened Wrappers

  /**
   * A command as the engine sees it: an identity standing for the instance,
   * the invokes it answers to, and whether it may run in direct messages.
   */
  datatype Command = Command(id: nat, invokes: seq<string>, executableInDM: bool)

  /** ASCII lower-casing of one character. */
  function ToLowerChar(c: char): char {
    if 'A' <= c <= 'Z' then (c as int + ('a' as int - 'A' as int)) as char else c
  }

  /** Lower-casing of a text, character by character. */
  function ToLower(s: string): string {
    seq(|s|, i requires 0 <= i < |s| => ToLowerChar(s[i]))
  }

  /** The map key an invoke is filed and looked up under. */
  function MapKey(invokeToLower: bool, invoke: string): string {
    if invokeToLower then ToLower(invoke) else invoke
  }

  /**
   * The outcome of registering a command's invokes: the map with all of them
   * added, or the conflicting key together with the map as it stood when the
   * clash was found (the keys of earlier invokes already added).
   */
  datatype Registration =
    | Registered(cmdMap: map<string, Command>)
    | Conflict(cmdMap: map<string, Command>, key: string)

  /** Files each invoke in turn, stopping at the first key already present. */
  function RegisterInvokes(m: map<string, Command>, invokes: seq<string>, invokeToLower: bool, cmd: Command): Registration
    decreases |invokes|
  {
    if invokes == [] then Registered(m)
    else
      var key := MapKey(invokeToLower, invokes[0]);
      if key in m then Conflict(m, key)
      else RegisterInvokes(m[key := cmd], invokes[1..], invokeToLower, cmd)
  }

  /** The command filed under the folded invoke, if any. */
  function GetCommand(cmdMap: map<string, Command>, invokeToLower: bool, invoke: string): Option<Command> {
    var key := MapKey(invokeToLower, invoke);
    if key in cmdMap then Some(cmdMap[key]) else None
  }

  // ---------------------------------------------------------------------
  // Properties

  /** The keys of a list of invokes are fresh and pairwise distinct. */
  predicate FreshKeys(m: map<string, Command>, invokes: seq<string>, invokeToLower: bool) {
    && (forall j :: 0 <= j < |invokes| ==> MapKey(invokeToLower, invokes[j]) !in m)
    && (forall j, k :: 0 <= j < k < |invokes| ==> MapKey(invokeToLower, invokes[j]) != MapKey(invokeToLower, invokes[k]))
  }

  /**
   * Registration succeeds exactly when every key is new and no two invokes of
   * the command fold to the same key; existing entries never change, and
   * every new entry maps a key of one of the invokes to the command.
   */
  lemma {:induction false} RegisterInvokesSpec(m: map<string, Command>, invokes: seq<string>, invokeToLower: bool, cmd: Command)
    ensures var r := RegisterInvokes(m, invokes, invokeToLower, cmd);
            && (r.Registered? <==> FreshKeys(m, invokes, invokeToLower))
            && (forall key :: key in m ==> key in r.cmdMap && r.cmdMap[key] == m[key])
            && (forall key :: key in r.cmdMap && key !in m ==>
                  r.cmdMap[key] == cmd && exists j :: 0 <= j < |invokes| && key == MapKey(invokeToLower, invokes[j]))
    decreases |invokes|
  {
    if invokes != [] {
      var key := MapKey(invokeToLower, invokes[0]);
      if key !in m {
        var m' := m[key := cmd];
        RegisterInvokesSpec(m', invokes[1..], invokeToLower, cmd);
        FreshKeysStep(m, invokes, invokeToLower, cmd);
        NewKeysStep(m, invokes, invokeToLower, cmd);
      }
    }
  }

  /** The keys are fresh in m exactly when the first is, and the rest are fresh once it is filed. */
  lemma FreshKeysStep(m: map<string, Command>, invokes: seq<string>, invokeToLower: bool, cmd: Command)
    requires invokes != [] && MapKey(invokeToLower, invokes[0]) !in m
    ensures FreshKeys(m, invokes, invokeToLower) <==>
            FreshKeys(m[MapKey(invokeToLower, invokes[0]) := cmd], invokes[1..], invokeToLower)
  {
    var m' := m[MapKey(invokeToLower, invokes[0]) := cmd];
    var rest := invokes[1..];
    assert forall j :: 0 <= j < |rest| ==> rest[j] == invokes[j + 1];
    if FreshKeys(m, invokes, invokeToLower) {
      assert FreshKeys(m', rest, invokeToLower);
    } else if FreshKeys(m', rest, invokeToLower) {
      assert FreshKeys(m, invokes, invokeToLower);
    }
  }

  /** A key new after filing the first invoke is that invoke's or one the rest of them added. */
  lemma NewKeysStep(m: map<string, Command>, invokes: seq<string>, invokeToLower: bool, cmd: Command)
    requires invokes != [] && MapKey(invokeToLower, invokes[0]) !in m
    requires var m' := m[MapKey(invokeToLower, invokes[0]) := cmd];
             var r := RegisterInvokes(m', invokes[1..], invokeToLower, cmd);
             forall key :: key in r.cmdMap && key !in m' ==>
               r.cmdMap[key] == cmd && exists j :: 0 <= j < |invokes[1..]| && key == MapKey(invokeToLower, invokes[1..][j])
    requires var m' := m[MapKey(invokeToLower, invokes[0]) := cmd];
             forall key :: key in m' ==> key in RegisterInvokes(m', invokes[1..], invokeToLower, cmd).cmdMap &&
                                         RegisterInvokes(m', invokes[1..], invokeToLower, cmd).cmdMap[key] == m'[key]
    ensures var r := RegisterInvokes(m, invokes, invokeToLower, cmd);
            forall key :: key in r.cmdMap && key !in m ==>
              r.cmdMap[key] == cmd && exists j :: 0 <= j < |invokes| && key == MapKey(invokeToLower, invokes[j])
  {
    var key := MapKey(invokeToLower, invokes[0]);
    var m' := m[key := cmd];
    var rest := invokes[1..];
    var r := RegisterInvokes(m', rest, invokeToLower, cmd);
    forall k | k in r.cmdMap && k !in m
      ensures r.cmdMap[k] == cmd && exists j :: 0 <= j < |invokes| && k == MapKey(invokeToLower, invokes[j])
    {
      if k == key {
        assert k == MapKey(invokeToLower, invokes[0]);
      } else {
        var j :| 0 <= j < |rest| && k == MapKey(invokeToLower, rest[j]);
        assert k == MapKey(invokeToLower, invokes[j + 1]);
      }
    }
  }

  /** After a successful registration every invoke's key leads to the command. */
  lemma {:induction false} RegisteredInvokesMapped(m: map<string, Command>, invokes: seq<string>, invokeToLower: bool, cmd: Command)
    requires RegisterInvokes(m, invokes, invokeToLower, cmd).Registered?
    ensures forall j :: 0 <= j < |invokes| ==>
              var key := MapKey(invokeToLower, invokes[j]);
              key in RegisterInvokes(m, invokes, invokeToLower, cmd).cmdMap &&
              RegisterInvokes(m, invokes, invokeToLower, cmd).cmdMap[key] == cmd
    decreases |invokes|
  {
    if invokes != [] {
      var key := MapKey(invokeToLower, invokes[0]);
      var m' := m[key := cmd];
      RegisteredInvokesMapped(m', invokes[1..], invokeToLower, cmd);
      RegisterInvokesSpec(m', invokes[1..], invokeToLower, cmd);
      forall j | 1 <= j < |invokes|
        ensures invokes[j] == invokes[1..][j - 1]
      {
      }
    }
  }

  /**
   * A conflict names a key that was already filed, either by another command
   * (its entry is unchanged) or by an earlier invoke of the same command; the
   * invokes before the clashing one are already filed under the command, and
   * the map handed back keeps every entry it started from.
   */
  lemma {:induction false} ConflictKey(m: map<string, Command>, invokes: seq<string>, invokeToLower: bool, cmd: Command)
    requires RegisterInvokes(m, invokes, invokeToLower, cmd).Conflict?
    ensures var r := RegisterInvokes(m, invokes, invokeToLower, cmd);
            && r.key in r.cmdMap
            && (r.key in m ==> r.cmdMap[r.key] == m[r.key])
            && (forall key :: key in m ==> key in r.cmdMap && r.cmdMap[key] == m[key])
            && exists j :: && 0 <= j < |invokes| && r.key == MapKey(invokeToLower, invokes[j])
                           && forall l :: 0 <= l < j ==>
                                MapKey(invokeToLower, invokes[l]) in r.cmdMap && r.cmdMap[MapKey(invokeToLower, invokes[l])] == cmd
    decreases |invokes|
  {
    RegisterInvokesSpec(m, invokes, invokeToLower, cmd);
    var r := RegisterInvokes(m, invokes, invokeToLower, cmd);
    var key := MapKey(invokeToLower, invokes[0]);
    if key in m {
      assert r.key == MapKey(invokeToLower, invokes[0]);
    } else {
      var rest := invokes[1..];
      ConflictKey(m[key := cmd], rest, invokeToLower, cmd);
      var j :| && 0 <= j < |rest| && r.key == MapKey(invokeToLower, rest[j])
               && forall l :: 0 <= l < j ==> MapKey(invokeToLower, rest[l]) in r.cmdMap && r.cmdMap[MapKey(invokeToLower, rest[l])] == cmd;
      assert r.key == MapKey(invokeToLower, invokes[j + 1]);
      forall l | 0 <= l < j + 1
        ensures MapKey(invokeToLower, invokes[l]) in r.cmdMap && r.cmdMap[MapKey(invokeToLower, invokes[l])] == cmd
      {
        if l > 0 {
          assert invokes[l] == rest[l - 1];
        }
      }
    }
  }

  /** Lower-casing twice is lower-casing once. */
  lemma ToLowerIdempotent(s: string)
    ensures ToLower(ToLower(s)) == ToLower(s)
  {
  }

  /**
   * Lookup after registration: any invoke that folds like one of the
   * command's invokes finds the command; with folding on, that is every
   * case variant of it, and the stored (lower-cased) key itself.
   */
  lemma LookupAfterRegister(m: map<string, Command>, invokes: seq<string>, invokeToLower: bool, cmd: Command, j: nat, v: string)
    requires RegisterInvokes(m, invokes, invokeToLower, cmd).Registered?
    requires j < |invokes|
    requires if invokeToLower then ToLower(v) == ToLower(invokes[j]) else v == invokes[j]
    ensures GetCommand(RegisterInvokes(m, invokes, invokeToLower, cmd).cmdMap, invokeToLower, v) == Some(cmd)
  {
    RegisteredInvokesMapped(m, invokes, invokeToLower, cmd);
  }

  /** With folding off, lookup is exact: only the very text filed finds a command. */
  lemma LookupWithoutFolding(cmdMap: map<string, Command>, v: string)
    ensures GetCommand(cmdMap, false, v).Some? <==> v in cmdMap
  {
  }

  /** Two commands claiming the same invoke: the second registration is a conflict. */
  lemma DuplicateInvokeConflicts(first: Command, second: Command, invokeToLower: bool)
    requires first.invokes == ["ping"] && second.invokes == ["ping"]
    ensures RegisterInvokes(map[], first.invokes, invokeToLower, first).Registered?
    ensures RegisterInvokes(RegisterInvokes(map[], first.invokes, invokeToLower, first).cmdMap,
                            second.invokes, invokeToLower, second).Conflict?
  {
    RegisteredInvokesMapped(map[], first.invokes, invokeToLower, first);
  }
}
