/** Argument arrays as the shell's C code sees them: a `char **` whose slots
    hold a string or NULL, and the argument vector `execvp` reads from a
    pointer into such an array (every string up to the first NULL). */
module Argv {

  datatype Option<T> = None | Some(value: T)

  type Token = string

  /** One slot of a `char **` array: a string, or NULL. */
  type Slot = Option<Token>

  /** The strings held by a run of slots none of which is NULL. */
  function Values(s: seq<Slot>): (r: seq<Token>)
    requires forall i :: 0 <= i < |s| ==> s[i].Some?
    ensures |r| == |s|
    ensures forall k :: 0 <= k < |s| ==> s[k] == Some(r[k])
  {
    if s == [] then [] else [s[0].value] + Values(s[1..])
  }

  /** The argument vector passed as `args + start`: the strings from `start`
      up to, not including, the first NULL slot. The array's last slot is
      NULL, so the walk stops inside it. */
  function ArgvFrom(s: seq<Slot>, start: nat): seq<Token>
    requires start < |s| && s[|s| - 1] == None
    decreases |s| - start
  {
    if s[start].None? then [] else [s[start].value] + ArgvFrom(s, start + 1)
  }

  /** When `stop` is the first NULL at or after `start`, the argument vector
      is exactly the strings of the slots in between, in order. */
  lemma {:induction false} ArgvFromUpTo(s: seq<Slot>, start: nat, stop: nat)
    requires start <= stop < |s| && s[|s| - 1] == None
    requires s[stop] == None
    requires forall i :: start <= i < stop ==> s[i].Some?
    ensures ArgvFrom(s, start) == Values(s[start..stop])
    decreases stop - start
  {
    if start < stop {
      ArgvFromUpTo(s, start + 1, stop);
      var rest := Values(s[start + 1..stop]);
      var all := Values(s[start..stop]);
      assert all[0] == s[start].value;
      assert forall k :: 0 <= k < |rest| ==> all[k + 1] == rest[k];
      assert all == [s[start].value] + rest;
    }
  }
}
