/**
 * `getResponsiveStyleProp` (wwLib/index.js): the value of one style
 * property for the current screen size and element states.
 *
 * The store is abstracted into parameters: the ordered media keys of
 * `front/getScreenSizes`, the current `front/getScreenSize`, and the
 * `websiteData/getWwObjects` table reduced to each object's `_state.style`.
 */
module ResponsiveStyle {
  import opened Wrappers
  import opened Js

  /** A style object: a media key (`default`, `tablet`, …) or a state-media
      key (`hover_tablet`) to the properties set for it.  A key that is
      present holds an object; a missing key reads as `undefined`. */
  type Style = map<string, map<string, Value>>

  /** `style[key][prop]`, `undefined` when either level is missing. */
  function Lookup(style: Style, key: string, prop: string): Value {
    if key in style && prop in style[key] then style[key][prop] else Undefined
  }

  /** The media keys both loops visit: every key in order up to and
      including the first one equal to the current screen size, and every
      key when the screen size is none of them. */
  function Consulted(screenSizes: seq<string>, screenSize: string): (c: seq<string>)
    ensures c <= screenSizes
    ensures screenSize !in screenSizes ==> c == screenSizes
    ensures screenSize in screenSizes ==>
              |c| > 0 && c[|c| - 1] == screenSize && screenSize !in c[..|c| - 1]
  {
    if screenSizes == [] then []
    else if screenSizes[0] == screenSize then [screenSize]
    else [screenSizes[0]] + Consulted(screenSizes[1..], screenSize)
  }

  /** When the loop stops at index `i`, having met the screen size nowhere
      before, it has visited exactly `Consulted`. */
  lemma {:induction false} ConsultedAt(screenSizes: seq<string>, screenSize: string, i: int)
    requires 0 <= i < |screenSizes| && screenSizes[i] == screenSize
    requires forall k :: 0 <= k < i ==> screenSizes[k] != screenSize
    ensures Consulted(screenSizes, screenSize) == screenSizes[..i + 1]
  {
    if i > 0 {
      ConsultedAt(screenSizes[1..], screenSize, i - 1);
      assert screenSizes[..i + 1] == [screenSizes[0]] + screenSizes[1..][..i];
    }
  }

  /** The two passes differ in which values they take: the base pass takes
      every value that is not `undefined` (`null`, `0` and `''` included),
      the state pass only truthy values. */
  datatype Pass = BasePass | StatePass

  predicate Accepts(pass: Pass, v: Value) {
    match pass
    case BasePass => v != Undefined
    case StatePass => Truthy(v)
  }

  /** The value a pass ends with when it visits `vs` in order, assigning
      every value it accepts: the last accepted one, if any. */
  function LastAccepted(vs: seq<Value>, pass: Pass): (r: Option<Value>)
    ensures r.Some? ==> r.value in vs && Accepts(pass, r.value)
  {
    if vs == [] then None
    else if Accepts(pass, vs[|vs| - 1]) then Some(vs[|vs| - 1])
    else LastAccepted(vs[..|vs| - 1], pass)
  }

  /** `LastAccepted` is the value at the last accepted position. */
  lemma {:induction false} LastAcceptedAt(vs: seq<Value>, pass: Pass, i: int)
    requires 0 <= i < |vs| && Accepts(pass, vs[i])
    requires forall j :: i < j < |vs| ==> !Accepts(pass, vs[j])
    ensures LastAccepted(vs, pass) == Some(vs[i])
  {
    if i < |vs| - 1 {
      LastAcceptedAt(vs[..|vs| - 1], pass, i);
    }
  }

  /** `LastAccepted` is None exactly when no position is accepted. */
  lemma {:induction false} LastAcceptedNone(vs: seq<Value>, pass: Pass)
    ensures LastAccepted(vs, pass).None? <==> forall i :: 0 <= i < |vs| ==> !Accepts(pass, vs[i])
  {
    if vs != [] {
      var init := vs[..|vs| - 1];
      LastAcceptedNone(init, pass);
      assert forall i :: 0 <= i < |init| ==> init[i] == vs[i];
    }
  }

  /** One more visited value: the pass either takes it or keeps what it had. */
  lemma LastAcceptedSnoc(vs: seq<Value>, v: Value, pass: Pass)
    ensures LastAccepted(vs + [v], pass) == if Accepts(pass, v) then Some(v) else LastAccepted(vs, pass)
  {
    assert (vs + [v])[..|vs|] == vs;
  }

  /** The values of `prop` under each of `keys`. */
  function Column(style: Style, keys: seq<string>, prop: string): seq<Value> {
    seq(|keys|, i requires 0 <= i < |keys| => Lookup(style, keys[i], prop))
  }

  /** The keys `${state}_${media}` for one state, in media order. */
  function Prefixed(state: string, medias: seq<string>): seq<string> {
    seq(|medias|, i requires 0 <= i < |medias| => state + "_" + medias[i])
  }

  /** The state-media keys the state pass visits: state by state, and
      within a state media by media. */
  function StateKeys(states: seq<string>, medias: seq<string>): (keys: seq<string>)
    ensures |keys| == |states| * |medias|
  {
    if states == [] then []
    else StateKeys(states[..|states| - 1], medias) + Prefixed(states[|states| - 1], medias)
  }

  /** The key at position `j * |medias| + i` is that of the `j`-th state and
      the `i`-th media. */
  lemma {:induction false} StateKeysAt(states: seq<string>, medias: seq<string>, j: int, i: int)
    requires 0 <= j < |states| && 0 <= i < |medias|
    ensures 0 <= j * |medias| + i < |StateKeys(states, medias)|
    ensures StateKeys(states, medias)[j * |medias| + i] == states[j] + "_" + medias[i]
  {
    var n := |states| - 1;
    var init := states[..n];
    assert StateKeys(states, medias) == StateKeys(init, medias) + Prefixed(states[n], medias);
    assert |StateKeys(init, medias)| == n * |medias|;
    if j < n {
      StateKeysAt(init, medias, j, i);
      assert j * |medias| + i < n * |medias| by {
        assert (j + 1) * |medias| <= n * |medias| by { MulMono(j + 1, n, |medias|); }
      }
    } else {
      assert j * |medias| == n * |medias|;
    }
  }

  lemma MulMono(a: int, b: int, m: nat)
    requires a <= b
    ensures a * m <= b * m
  {
  }

  /** The base value: the last value not `undefined` among the consulted
      media keys, `''` when there is none. */
  function Base(style: Style, consulted: seq<string>, prop: string): Value {
    LastAccepted(Column(style, consulted, prop), BasePass).GetOr(Str(""))
  }

  /** What `getResponsiveStyleProp` returns for a style object: the base
      value, overridden by the last truthy state-media value. */
  function Cascade(style: Style, screenSizes: seq<string>, screenSize: string,
                   states: seq<string>, prop: string): Value
  {
    var consulted := Consulted(screenSizes, screenSize);
    LastAccepted(Column(style, StateKeys(states, consulted), prop), StatePass)
      .GetOr(Base(style, consulted, prop))
  }

  /** The base value is the value under the last consulted media key that
      holds one that is not `undefined` (`null` counts), and `''` when no
      consulted key holds one. */
  lemma BaseIsLastDefined(style: Style, screenSizes: seq<string>, screenSize: string, prop: string)
    ensures var c := Consulted(screenSizes, screenSize);
            (forall i :: 0 <= i < |c| ==> Lookup(style, c[i], prop) == Undefined) ==>
              Base(style, c, prop) == Str("")
    ensures var c := Consulted(screenSizes, screenSize);
            forall i :: 0 <= i < |c| && Lookup(style, c[i], prop) != Undefined &&
                        (forall j :: i < j < |c| ==> Lookup(style, c[j], prop) == Undefined)
              ==> Base(style, c, prop) == Lookup(style, c[i], prop)
  {
    var c := Consulted(screenSizes, screenSize);
    var vs := Column(style, c, prop);
    LastAcceptedNone(vs, BasePass);
    forall i | 0 <= i < |c| && Lookup(style, c[i], prop) != Undefined &&
               (forall j :: i < j < |c| ==> Lookup(style, c[j], prop) == Undefined)
      ensures Base(style, c, prop) == Lookup(style, c[i], prop)
    {
      LastAcceptedAt(vs, BasePass, i);
    }
  }

  /** The state pass overrides the base value with the value under the
      last state-media key (states in order, media in order within a
      state) whose value is truthy; when no such value is truthy, falsy
      ones included, the base value stands. */
  lemma StateOverride(style: Style, screenSizes: seq<string>, screenSize: string, states: seq<string>, prop: string)
    ensures var keys := StateKeys(states, Consulted(screenSizes, screenSize));
            (forall i :: 0 <= i < |keys| ==> !Truthy(Lookup(style, keys[i], prop))) ==>
              Cascade(style, screenSizes, screenSize, states, prop)
                == Base(style, Consulted(screenSizes, screenSize), prop)
    ensures var keys := StateKeys(states, Consulted(screenSizes, screenSize));
            forall i :: 0 <= i < |keys| && Truthy(Lookup(style, keys[i], prop)) &&
                        (forall j :: i < j < |keys| ==> !Truthy(Lookup(style, keys[j], prop)))
              ==> Cascade(style, screenSizes, screenSize, states, prop) == Lookup(style, keys[i], prop)
  {
    var keys := StateKeys(states, Consulted(screenSizes, screenSize));
    var vs := Column(style, keys, prop);
    assert forall i :: 0 <= i < |keys| ==> vs[i] == Lookup(style, keys[i], prop);
    LastAcceptedNone(vs, StatePass);
    forall i | 0 <= i < |keys| && Truthy(Lookup(style, keys[i], prop)) &&
               (forall j :: i < j < |keys| ==> !Truthy(Lookup(style, keys[j], prop)))
      ensures Cascade(style, screenSizes, screenSize, states, prop) == Lookup(style, keys[i], prop)
    {
      LastAcceptedAt(vs, StatePass, i);
    }
  }

  /** A value that is falsy but not `undefined` is taken by the base pass
      and never by the state pass. */
  lemma FalsyValuesSplitThePasses(v: Value)
    ensures v != Undefined && !Truthy(v) <==> Accepts(BasePass, v) && !Accepts(StatePass, v)
  {
  }

  /** The result depends on the style only through the consulted media keys
      and the state-media keys built from them. */
  lemma CascadeReadsOnlyConsulted(s1: Style, s2: Style, screenSizes: seq<string>, screenSize: string,
                                  states: seq<string>, prop: string)
    requires forall k :: k in Consulted(screenSizes, screenSize) + StateKeys(states, Consulted(screenSizes, screenSize))
               ==> Lookup(s1, k, prop) == Lookup(s2, k, prop)
    ensures Cascade(s1, screenSizes, screenSize, states, prop) == Cascade(s2, screenSizes, screenSize, states, prop)
  {
    var c := Consulted(screenSizes, screenSize);
    var keys := StateKeys(states, c);
    assert forall i :: 0 <= i < |c| ==> c[i] in c + keys;
    assert forall i :: 0 <= i < |keys| ==> keys[i] in c + keys;
    assert Column(s1, c, prop) == Column(s2, c, prop);
    assert Column(s1, keys, prop) == Column(s2, keys, prop);
  }

  /** Media keys after the current screen size are never consulted: when
      the screen size first occurs at index `i`, an entry under any key
      outside the first `i + 1` media keys and their state keys changes
      nothing. */
  lemma LaterMediaNeverConsulted(style: Style, screenSizes: seq<string>, screenSize: string, states: seq<string>,
                                 prop: string, i: int, key: string, entry: map<string, Value>)
    requires 0 <= i < |screenSizes| && screenSizes[i] == screenSize
    requires forall k :: 0 <= k < i ==> screenSizes[k] != screenSize
    requires key !in screenSizes[..i + 1] && key !in StateKeys(states, screenSizes[..i + 1])
    ensures Cascade(style[key := entry], screenSizes, screenSize, states, prop)
         == Cascade(style, screenSizes, screenSize, states, prop)
  {
    ConsultedAt(screenSizes, screenSize, i);
    CascadeReadsOnlyConsulted(style[key := entry], style, screenSizes, screenSize, states, prop);
  }

  /** Visiting `ys` after `xs` is visiting `xs`, then `ys` starting from
      what `xs` left. */
  lemma {:induction false} LastAcceptedAppend(xs: seq<Value>, ys: seq<Value>, pass: Pass, start: Value)
    ensures LastAccepted(xs + ys, pass).GetOr(start) ==
            LastAccepted(ys, pass).GetOr(LastAccepted(xs, pass).GetOr(start))
  {
    if ys != [] {
      var init := ys[..|ys| - 1];
      var last := ys[|ys| - 1];
      assert xs + ys == (xs + init) + [last];
      assert ys == init + [last];
      LastAcceptedSnoc(xs + init, last, pass);
      LastAcceptedSnoc(init, last, pass);
      LastAcceptedAppend(xs, init, pass, start);
    } else {
      assert xs + ys == xs;
    }
  }

  /** One more visited key appends its value to the column. */
  lemma ColumnStep(style: Style, keys: seq<string>, i: int, prop: string)
    requires 0 <= i < |keys|
    ensures Column(style, keys[..i + 1], prop) == Column(style, keys[..i], prop) + [Lookup(style, keys[i], prop)]
  {
  }

  lemma PrefixedStep(state: string, medias: seq<string>, i: int)
    requires 0 <= i < |medias|
    ensures Prefixed(state, medias[..i + 1]) == Prefixed(state, medias[..i]) + [state + "_" + medias[i]]
  {
  }

  lemma ColumnAppend(style: Style, xs: seq<string>, ys: seq<string>, prop: string)
    ensures Column(style, xs + ys, prop) == Column(style, xs, prop) + Column(style, ys, prop)
  {
  }

  /** The first loop: the base value over the consulted media keys. */
  method BaseValue(style: Style, screenSizes: seq<string>, screenSize: string, prop: string)
    returns (value: Value)
    ensures value == Base(style, Consulted(screenSizes, screenSize), prop)
  {
    value := Str("");
    var i := 0;
    while i < |screenSizes|
      invariant 0 <= i <= |screenSizes|
      invariant forall k :: 0 <= k < i ==> screenSizes[k] != screenSize
      invariant value == Base(style, screenSizes[..i], prop)
    {
      var media := screenSizes[i];
      var v := Lookup(style, media, prop);
      if v != Undefined {
        value := v;
      }
      ColumnStep(style, screenSizes, i, prop);
      LastAcceptedSnoc(Column(style, screenSizes[..i], prop), v, BasePass);
      if media == screenSize {
        ConsultedAt(screenSizes, screenSize, i);
        return;
      }
      i := i + 1;
    }
    assert screenSizes[..i] == screenSizes;
  }

  /** One pass of the inner state loop: the consulted `${state}_${media}`
      keys, a truthy value replacing the one held. */
  method ApplyState(style: Style, screenSizes: seq<string>, screenSize: string, state: string,
                    prop: string, start: Value)
    returns (value: Value)
    ensures value == LastAccepted(Column(style, Prefixed(state, Consulted(screenSizes, screenSize)), prop), StatePass)
                       .GetOr(start)
  {
    value := start;
    var k := 0;
    while k < |screenSizes|
      invariant 0 <= k <= |screenSizes|
      invariant forall m :: 0 <= m < k ==> screenSizes[m] != screenSize
      invariant value == LastAccepted(Column(style, Prefixed(state, screenSizes[..k]), prop), StatePass).GetOr(start)
    {
      var media := screenSizes[k];
      var v := Lookup(style, state + "_" + media, prop);
      if Truthy(v) {
        value := v;
      }
      PrefixedStep(state, screenSizes, k);
      ColumnAppend(style, Prefixed(state, screenSizes[..k]), [state + "_" + media], prop);
      LastAcceptedSnoc(Column(style, Prefixed(state, screenSizes[..k]), prop), v, StatePass);
      if media == screenSize {
        ConsultedAt(screenSizes, screenSize, k);
        return;
      }
      k := k + 1;
    }
    assert screenSizes[..k] == screenSizes;
  }

  /** The second loop: the states in order, each over the consulted media. */
  method StateValue(style: Style, screenSizes: seq<string>, screenSize: string, states: seq<string>,
                    prop: string, base: Value)
    returns (value: Value)
    ensures value == LastAccepted(Column(style, StateKeys(states, Consulted(screenSizes, screenSize)), prop), StatePass)
                       .GetOr(base)
  {
    ghost var consulted := Consulted(screenSizes, screenSize);
    value := base;
    var j := 0;
    while j < |states|
      invariant 0 <= j <= |states|
      invariant value == LastAccepted(Column(style, StateKeys(states[..j], consulted), prop), StatePass).GetOr(base)
    {
      ghost var done := StateKeys(states[..j], consulted);
      ghost var next := Prefixed(states[j], consulted);
      value := ApplyState(style, screenSizes, screenSize, states[j], prop, value);
      assert states[..j + 1][..j] == states[..j];
      assert StateKeys(states[..j + 1], consulted) == done + next;
      ColumnAppend(style, done, next, prop);
      LastAcceptedAppend(Column(style, done, prop), Column(style, next, prop), StatePass, base);
      j := j + 1;
    }
    assert states[..j] == states;
  }

  /** The model of `getResponsiveStyleProp`.  `style` is the argument (None
      for `undefined` or `null`); `uid` the argument, truthy when non-empty;
      `wwObjects` maps each uid to its object's `_state.style` (None when
      either is missing). */
  method GetResponsiveStyleProp(style: Option<Style>, uid: string, wwObjects: map<string, Option<Style>>,
                                screenSizes: seq<string>, screenSize: string,
                                states: seq<string>, prop: string)
    returns (r: Result<Value, Exception>)
    ensures style.Some? ==> r == Success(Cascade(style.value, screenSizes, screenSize, states, prop))
    ensures style.None? && uid != "" && uid !in wwObjects ==> r == Success(Str(""))
    ensures style.None? && uid != "" && uid in wwObjects ==>
              r == Success(Cascade(wwObjects[uid].GetOr(map[]), screenSizes, screenSize, states, prop))
    ensures style.None? && uid == "" ==>
              r == if screenSizes == [] then Success(Str("")) else Failure(TypeError)
  {
    var st: Style;
    if style.Some? {
      st := style.value;
    } else if uid != "" {
      if uid !in wwObjects {
        return Success(Str(""));
      }
      st := wwObjects[uid].GetOr(map[]);
    } else if screenSizes == [] {
      // No loop body runs, so the missing style is never read.
      return Success(Str(""));
    } else {
      // The first `style[media]` reads a property of `undefined`.
      return Failure(TypeError);
    }
    var value := BaseValue(st, screenSizes, screenSize, prop);
    value := StateValue(st, screenSizes, screenSize, states, prop, value);
    return Success(value);
  }
}
