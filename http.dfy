/** Angular's `HttpParams`, request headers and `FormData`, as values. */
module Http {
  import opened Wrappers

  /** `HttpParams`: an ordered list of key/value pairs, each key at most once. */
  type Params = seq<(string, string)>

  function Keys(p: Params): (ks: seq<string>)
    ensures |ks| == |p|
    ensures forall i :: 0 <= i < |p| ==> ks[i] == p[i].0
  {
    seq(|p|, i requires 0 <= i < |p| => p[i].0)
  }

  predicate DistinctKeys(p: Params) {
    forall i, j :: 0 <= i < j < |p| ==> p[i].0 != p[j].0
  }

  /** `params.get(key)`. */
  function Get(p: Params, key: string): (v: Option<string>)
    ensures v.None? <==> key !in Keys(p)
    ensures v.Some? ==> exists i :: 0 <= i < |p| && p[i] == (key, v.value)
  {
    if |p| == 0 then None
    else if p[0].0 == key then Some(p[0].1)
    else
      var v := Get(p[1..], key);
      assert Keys(p) == [p[0].0] + Keys(p[1..]);
      if v.Some? then
        var i :| 0 <= i < |p[1..]| && p[1..][i] == (key, v.value);
        assert p[i + 1] == (key, v.value);
        v
      else v
  }

  /** `r` is `p` with the pair at index `i`, the first one holding `key`,
      replaced by `(key, value)`. */
  predicate ReplacedAt(p: Params, key: string, value: string, r: Params, i: nat) {
    && i < |p| && p[i].0 == key
    && (forall k :: 0 <= k < i ==> p[k].0 != key)
    && r == p[..i] + [(key, value)] + p[i + 1..]
  }

  /** `params.set(key, value)`: replaces the value of an existing key in
      place, otherwise appends the pair. */
  function Set(p: Params, key: string, value: string): (r: Params)
    ensures key in Keys(p) ==> |r| == |p| && exists i: nat :: ReplacedAt(p, key, value, r, i)
    ensures key !in Keys(p) ==> r == p + [(key, value)]
  {
    if |p| == 0 then [(key, value)]
    else if p[0].0 == key then
      assert ReplacedAt(p, key, value, [(key, value)] + p[1..], 0);
      [(key, value)] + p[1..]
    else
      assert Keys(p) == [p[0].0] + Keys(p[1..]);
      var rest := Set(p[1..], key, value);
      assert key in Keys(p) ==> exists i: nat :: ReplacedAt(p, key, value, [p[0]] + rest, i) by {
        if key in Keys(p) {
          var j: nat :| ReplacedAt(p[1..], key, value, rest, j);
          ConsReplaced(p, key, value, rest, j);
        }
      }
      [p[0]] + rest
  }

  /** Replacing in the tail of `p` is replacing one index further in `p`. */
  lemma ConsReplaced(p: Params, key: string, value: string, rest: Params, j: nat)
    requires |p| > 0 && p[0].0 != key
    requires ReplacedAt(p[1..], key, value, rest, j)
    ensures ReplacedAt(p, key, value, [p[0]] + rest, j + 1)
  {
    var t := p[1..];
    assert p[..j + 1] == [p[0]] + t[..j];
    assert p[j + 2..] == t[j + 1..];
    assert forall k :: 0 < k < j + 1 ==> p[k] == t[k - 1];
  }

  /** After `set`, the key reads back the new value and every other key is
      unaffected. */
  lemma {:induction false} SetThenGet(p: Params, key: string, value: string, other: string)
    ensures Get(Set(p, key, value), key) == Some(value)
    ensures other != key ==> Get(Set(p, key, value), other) == Get(p, other)
  {
    if |p| > 0 && p[0].0 != key {
      SetThenGet(p[1..], key, value, other);
      assert Set(p, key, value)[1..] == Set(p[1..], key, value);
    }
  }

  /** One `if (guard) params = params.set(key, value)` of a builder. */
  datatype ParamStep = ParamStep(guard: bool, key: string, value: string)

  /** Runs a builder's guarded `set` calls in order. */
  function ApplySteps(p: Params, steps: seq<ParamStep>): Params
    decreases |steps|
  {
    if steps == [] then p
    else
      var s := steps[0];
      ApplySteps(if s.guard then Set(p, s.key, s.value) else p, steps[1..])
  }

  /** The value the first step for `key` sets, `None` when that step's guard
      fails or no step names `key`. */
  function StepValue(steps: seq<ParamStep>, key: string): Option<string>
    decreases |steps|
  {
    if steps == [] then None
    else if steps[0].key == key then (if steps[0].guard then Some(steps[0].value) else None)
    else StepValue(steps[1..], key)
  }

  lemma StepValueCons(s: ParamStep, rest: seq<ParamStep>, key: string)
    ensures StepValue([s] + rest, key) ==
              if s.key == key then (if s.guard then Some(s.value) else None) else StepValue(rest, key)
  {
    assert ([s] + rest)[1..] == rest;
  }

  /** Only a key some step names can have a value. */
  lemma {:induction false} StepValueNamesKey(steps: seq<ParamStep>, key: string)
    ensures StepValue(steps, key).Some? ==> exists i :: 0 <= i < |steps| && steps[i].key == key
    decreases |steps|
  {
    if steps != [] && steps[0].key != key {
      StepValueNamesKey(steps[1..], key);
      if StepValue(steps, key).Some? {
        var i :| 0 <= i < |steps[1..]| && steps[1..][i].key == key;
        assert steps[i + 1].key == key;
      }
    }
  }

  predicate DistinctStepKeys(steps: seq<ParamStep>) {
    forall i, j :: 0 <= i < j < |steps| ==> steps[i].key != steps[j].key
  }

  /** Running steps with distinct keys absent from `p` leaves each key
      holding the value its step set, and every other key as it was. */
  lemma {:induction false} ApplyStepsGet(p: Params, steps: seq<ParamStep>, key: string)
    requires DistinctStepKeys(steps)
    requires forall i :: 0 <= i < |steps| ==> Get(p, steps[i].key).None?
    ensures Get(ApplySteps(p, steps), key) ==
              if StepValue(steps, key).Some? then StepValue(steps, key) else Get(p, key)
    decreases |steps|
  {
    if steps != [] {
      var s := steps[0];
      var p' := if s.guard then Set(p, s.key, s.value) else p;
      var tail := steps[1..];
      forall i | 0 <= i < |tail| ensures Get(p', tail[i].key).None? {
        assert tail[i] == steps[i + 1];
        if s.guard {
          SetThenGet(p, s.key, s.value, tail[i].key);
        }
      }
      ApplyStepsGet(p', tail, key);
      StepValueNamesKey(tail, key);
      if s.guard {
        SetThenGet(p, s.key, s.value, key);
      }
    }
  }

  /** A request as the interceptor sees it. Headers are a map because
      `setHeaders` overwrites a header of the same name. */
  datatype Request = Request(verb: string, url: string, headers: map<string, string>, params: Params, body: string)

  /** A user-selected file (a `File` object). */
  datatype File = File(name: string, size: nat)

  /** One `FormData` entry value: a string or a file. */
  datatype FormValue = Text(text: string) | Blob(file: File)

  type FormData = seq<(string, FormValue)>
}
