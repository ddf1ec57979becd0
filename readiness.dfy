/**
 * The boot-readiness tick that both launchers implement as `bootstrap_spin`.
 * The two copies differ only in the silence limit, the ready pattern and the
 * action run on a match, so the tick is stated once here with those three
 * as parameters; each launcher's class instantiates it.
 */
module Readiness {
  import opened Console
  import Utf8

  /** The two fields a tick reads and updates: `self.spins` and `self.running`. */
  datatype Spin = Spin(spins: int, running: bool)

  /** What the post-boot action did: the effects it asked for, and whether it returned normally. */
  datatype Hook = Hook(effects: seq<Effect>, ok: bool)

  /** The outcome of one tick: the new counters, the effects in order, and whether the tick raised. */
  datatype Tick = Tick(after: Spin, effects: seq<Effect>, raised: bool)

  /** A launcher with no post-boot action. */
  const NoHook := Hook([], true)

  /** The read matched the (only) ready pattern. */
  predicate IsMatch(r: ReadResult) {
    r.matched && r.index == 0
  }

  /**
   * The read did not match and its output is logged, which decodes it as
   * UTF-8 before the counter is reset; undecodable output raises there.
   */
  predicate Undecodable(r: ReadResult) {
    !IsMatch(r) && r.output != [] && !Utf8.Valid(r.output)
  }

  /** The read neither matched nor produced any output. */
  predicate Quiet(r: ReadResult) {
    !IsMatch(r) && r.output == []
  }

  /**
   * One call of `bootstrap_spin`, with the console read `r` and the outcome
   * `hook` of the post-boot action taken as inputs.
   */
  function Step(limit: int, pattern: string, s: Spin, r: ReadResult, hook: Hook): (t: Tick)
    // past the limit: stop and start the VM, read nothing, change no counter
    ensures s.spins > limit ==> t == Tick(s, [Stop, Start], false)
    // otherwise the tick begins with exactly one console read for the pattern
    ensures s.spins <= limit ==> |t.effects| >= 1 && t.effects[0] == Expect(pattern)
    // the VM becomes ready exactly on a match at index 0 whose action returned normally
    ensures t.after.running <==> s.running || (s.spins <= limit && IsMatch(r) && hook.ok)
    ensures t.raised <==> s.spins <= limit && ((IsMatch(r) && !hook.ok) || Undecodable(r))
    // on a match the counter is kept, the action runs after the console write,
    // and the console is closed last, only if the action returned normally
    ensures s.spins <= limit && IsMatch(r) ==>
      && t.after.spins == s.spins
      && |t.effects| >= 2 + |hook.effects|
      && t.effects[..2 + |hook.effects|] == [Expect(pattern), WaitWrite("")] + hook.effects
      && t.effects[2 + |hook.effects|..] == (if hook.ok then [CloseConsole] else [])
    // output that does not decode raises before the counter is touched
    ensures s.spins <= limit && Undecodable(r) ==> t == Tick(s, [Expect(pattern)], true)
    // otherwise, without a match, any output resets the silence count to 0
    // before the increment, so it ends at 1; silence adds one
    ensures s.spins <= limit && !IsMatch(r) && !Undecodable(r) ==>
      t == Tick(Spin(if r.output != [] then 1 else s.spins + 1, s.running), [Expect(pattern)], false)
  {
    if s.spins > limit then
      Tick(s, [Stop, Start], false)
    else if r.matched && r.index == 0 then
      var before := [Expect(pattern), WaitWrite("")] + hook.effects;
      if hook.ok then Tick(Spin(s.spins, true), before + [CloseConsole], false)
      else Tick(s, before, true)
    else if r.output != [] && !Utf8.Valid(r.output) then
      Tick(s, [Expect(pattern)], true)
    else
      var spins := if r.output != [] then 0 else s.spins;
      Tick(Spin(spins + 1, s.running), [Expect(pattern)], false)
  }

  /** The counters after one tick per console read in `ticks`, in order; a tick that raises ends the run. */
  function Run(limit: int, pattern: string, s: Spin, ticks: seq<ReadResult>, hook: Hook): Spin
    decreases |ticks|
  {
    if ticks == [] then s
    else
      var t := Step(limit, pattern, s, ticks[0], hook);
      if t.raised then t.after else Run(limit, pattern, t.after, ticks[1..], hook)
  }

  /** Ticks without output or match, while the limit is not passed, count up by one each. */
  lemma {:induction false} QuietTicksCount(limit: int, pattern: string, s: Spin, ticks: seq<ReadResult>, hook: Hook)
    requires forall i :: 0 <= i < |ticks| ==> Quiet(ticks[i])
    requires s.spins + |ticks| <= limit + 1
    ensures Run(limit, pattern, s, ticks, hook) == Spin(s.spins + |ticks|, s.running)
    decreases |ticks|
  {
    if ticks != [] {
      assert Quiet(ticks[0]);
      QuietTicksCount(limit, pattern, Spin(s.spins + 1, s.running), ticks[1..], hook);
    }
  }

  /**
   * From a fresh counter, the first `limit + 1` silent ticks never restart,
   * and the tick after them does: it stops and starts the VM, whatever it
   * would have read.
   */
  lemma {:induction false} SilenceForcesRestart(limit: nat, pattern: string, running: bool, ticks: seq<ReadResult>, hook: Hook, next: ReadResult)
    requires |ticks| == limit + 1
    requires forall i :: 0 <= i < |ticks| ==> Quiet(ticks[i])
    ensures forall k :: 0 <= k <= limit ==> Run(limit, pattern, Spin(0, running), ticks[..k], hook).spins == k
    ensures Run(limit, pattern, Spin(0, running), ticks, hook) == Spin(limit + 1, running)
    ensures Step(limit, pattern, Run(limit, pattern, Spin(0, running), ticks, hook), next, hook).effects == [Stop, Start]
  {
    forall k | 0 <= k <= limit
      ensures Run(limit, pattern, Spin(0, running), ticks[..k], hook).spins == k
    {
      QuietTicksCount(limit, pattern, Spin(0, running), ticks[..k], hook);
    }
    QuietTicksCount(limit, pattern, Spin(0, running), ticks, hook);
  }

  /**
   * Silence is counted from the last tick that showed output: if no tick
   * matches, the limit is not reached before that tick nor in the silence
   * after it, the counter after the run is the number of ticks from the last
   * one with output to the end. The two bounds are separate: the output
   * resets the counter, so the whole run may be longer than the limit.
   */
  lemma {:induction false} OutputResetsSilence(limit: int, pattern: string, s: Spin, ticks: seq<ReadResult>, hook: Hook, j: nat)
    requires s.spins >= 0 && s.spins + j <= limit && |ticks| - j <= limit + 1
    requires forall i :: 0 <= i < |ticks| ==> !IsMatch(ticks[i]) && Utf8.Valid(ticks[i].output)
    requires j < |ticks| && ticks[j].output != []
    requires forall i :: j < i < |ticks| ==> ticks[i].output == []
    ensures Run(limit, pattern, s, ticks, hook) == Spin(|ticks| - j, s.running)
    decreases |ticks|
  {
    assert !IsMatch(ticks[0]) && !Undecodable(ticks[0]);
    var after := Step(limit, pattern, s, ticks[0], hook).after;
    if j == 0 {
      assert after == Spin(1, s.running);
      forall i | 0 <= i < |ticks[1..]| ensures Quiet(ticks[1..][i]) {
        assert ticks[1..][i] == ticks[i + 1];
      }
      QuietTicksCount(limit, pattern, after, ticks[1..], hook);
    } else {
      assert 0 <= after.spins <= s.spins + 1;
      OutputResetsSilence(limit, pattern, after, ticks[1..], hook, j - 1);
    }
  }

  /**
   * The scenario of one tick with output, four silent ticks and one more
   * tick with output: the counter ends at 1 (it is reset and then incremented),
   * not at 5.
   */
  lemma SilenceResetExample(limit: int, pattern: string, running: bool, hook: Hook)
    requires limit >= 5
    ensures
      var out := ReadResult(-1, false, [0x2e]);
      var none := ReadResult(-1, false, []);
      Run(limit, pattern, Spin(0, running), [out, none, none, none, none, out], hook) == Spin(1, running)
  {
    var out := ReadResult(-1, false, [0x2e]);
    var none := ReadResult(-1, false, []);
    Utf8.AsciiValid(out.output);
    OutputResetsSilence(limit, pattern, Spin(0, running), [out, none, none, none, none, out], hook, 5);
  }

  /**
   * A read that ends halfway through `é` (bytes 0xC3 0xA9) raises, and so
   * does the next read holding the rest of it; neither touches the counter.
   */
  lemma SplitCharacterRaises(limit: int, pattern: string, s: Spin, hook: Hook)
    requires s.spins <= limit
    ensures Step(limit, pattern, s, ReadResult(-1, false, [0x41, 0xC3]), hook) == Tick(s, [Expect(pattern)], true)
    ensures Step(limit, pattern, s, ReadResult(-1, false, [0xA9]), hook) == Tick(s, [Expect(pattern)], true)
  {
    var first: seq<bv8> := [0x41, 0xC3];
    assert Utf8.CharLen(first) == 1 && first[1..] == [0xC3];
    Utf8.SplitCharacterExample();
  }
}
