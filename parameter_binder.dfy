/**
 * Parameter binding: the alternation pattern `(n1\b|n2\b|...|nk)` built from
 * the declared names, the left-to-right scan of the query text that
 * Regex.Matches performs with it, and the binding of one parameter per match.
 * Names are read literally (the library never escapes them).
 */
module ParameterBinder {
  import opened Common
  import opened Data

  /** `\b` at position p of q: a word character on exactly one side. */
  predicate Boundary(q: string, p: nat)
  {
    (0 < p <= |q| && IsWordChar(q[p - 1])) != (p < |q| && IsWordChar(q[p]))
  }

  /** n occurs in q starting at i. */
  predicate OccursAt(q: string, i: nat, n: string)
  {
    i + |n| <= |q| && q[i..i + |n|] == n
  }

  /** Alternative k of the pattern matches at i: every alternative but the last carries `\b`. */
  predicate AltMatches(q: string, names: seq<string>, k: nat, i: nat)
    requires k < |names|
  {
    OccursAt(q, i, names[k]) && (k == |names| - 1 || Boundary(q, i + |names[k]|))
  }

  /** Some alternative matches at i. */
  predicate AnyAltMatches(q: string, names: seq<string>, i: nat)
  {
    exists k :: 0 <= k < |names| && AltMatches(q, names, k, i)
  }

  /** The alternative the regex engine commits to at i: the first from k on, in declaration order. */
  function FirstAlt(q: string, names: seq<string>, i: nat, k: nat): (r: Option<nat>)
    decreases |names| - k
    ensures r.Some? ==> k <= r.value < |names| && AltMatches(q, names, r.value, i)
    ensures r.Some? ==> forall j :: k <= j < r.value ==> !AltMatches(q, names, j, i)
    ensures r.None? ==> forall j :: k <= j < |names| ==> !AltMatches(q, names, j, i)
  {
    if k >= |names| then None
    else if AltMatches(q, names, k, i) then Some(k)
    else FirstAlt(q, names, i, k + 1)
  }

  /** One regex match: where it starts and the text it matched. */
  datatype Match = Match(index: nat, value: string)

  /**
   * Regex.Matches from position i: try every position left to right; after a
   * match resume at its end (one further after an empty match).
   */
  function Scan(q: string, names: seq<string>, i: nat): (r: seq<Match>)
    decreases |q| + 1 - i
    ensures i <= |q| + 1 ==> |r| <= |q| + 1 - i
    ensures r != [] ==> r[0].index >= i && FirstAlt(q, names, r[0].index, 0).Some?
  {
    if i > |q| then []
    else match FirstAlt(q, names, i, 0)
      case Some(k) => [Match(i, names[k])] + Scan(q, names, i + if |names[k]| == 0 then 1 else |names[k]|)
      case None => Scan(q, names, i + 1)
  }

  /** Where the scan resumes after m. */
  function After(m: Match): nat
  {
    m.index + if |m.value| == 0 then 1 else |m.value|
  }

  /** m is what the regex engine matches when it tries position m.index. */
  predicate CommittedAt(q: string, names: seq<string>, m: Match)
  {
    var k := FirstAlt(q, names, m.index, 0);
    k.Some? && m.value == names[k.value]
  }

  /** The ordered, non-overlapping list of matches, each committed to by the regex engine. */
  ghost predicate SoundMatches(q: string, names: seq<string>, i: nat, ms: seq<Match>)
  {
    && (forall t :: 0 <= t < |ms| ==> i <= ms[t].index)
    && (forall t :: 0 <= t < |ms| ==> CommittedAt(q, names, ms[t]))
    && (forall t :: 0 <= t < |ms| - 1 ==> After(ms[t]) <= ms[t + 1].index)
  }

  /** A committed match followed by sound matches from its end is sound from its start. */
  lemma ScanSoundCons(q: string, names: seq<string>, i: nat, k: nat, next: nat, rest: seq<Match>)
    requires FirstAlt(q, names, i, 0) == Some(k) && next == After(Match(i, names[k]))
    requires SoundMatches(q, names, next, rest)
    ensures SoundMatches(q, names, i, [Match(i, names[k])] + rest)
  {
    var ms := [Match(i, names[k])] + rest;
    forall t | 0 <= t < |ms| ensures i <= ms[t].index && CommittedAt(q, names, ms[t]) {
      if t > 0 {
        assert ms[t] == rest[t - 1];
      }
    }
    forall t | 0 <= t < |ms| - 1 ensures After(ms[t]) <= ms[t + 1].index {
      if t > 0 {
        assert ms[t] == rest[t - 1] && ms[t + 1] == rest[t];
      }
    }
  }

  /** A position where no alternative matches adds nothing to the scan. */
  lemma ScanSoundSkip(q: string, names: seq<string>, i: nat)
    requires i <= |q| && FirstAlt(q, names, i, 0).None?
    requires SoundMatches(q, names, i + 1, Scan(q, names, i + 1))
    ensures SoundMatches(q, names, i, Scan(q, names, i))
  {
    assert Scan(q, names, i) == Scan(q, names, i + 1);
  }

  lemma {:induction false} ScanSound(q: string, names: seq<string>, i: nat)
    ensures SoundMatches(q, names, i, Scan(q, names, i))
    decreases |q| + 1 - i
  {
    if i <= |q| {
      var f := FirstAlt(q, names, i, 0);
      if f.Some? {
        var k := f.value;
        var next := After(Match(i, names[k]));
        ScanSound(q, names, next);
        assert Scan(q, names, i) == [Match(i, names[k])] + Scan(q, names, next);
        ScanSoundCons(q, names, i, k, next, Scan(q, names, next));
      } else {
        ScanSound(q, names, i + 1);
        ScanSoundSkip(q, names, i);
      }
    }
  }

  /** Every match is of a declared name, occurs in the text where it was found, and is followed by `\b` unless it is the last name. */
  lemma MatchesAreDeclaredOccurrences(q: string, names: seq<string>, m: Match)
    requires m in Scan(q, names, 0)
    ensures m.value in names
    ensures OccursAt(q, m.index, m.value)
    ensures |names| > 0 && m.value != names[|names| - 1] ==> Boundary(q, m.index + |m.value|)
  {
    assert CommittedAt(q, names, m) by {
      ScanSound(q, names, 0);
      var ms := Scan(q, names, 0);
      var t :| 0 <= t < |ms| && ms[t] == m;
    }
    var k := FirstAlt(q, names, m.index, 0).value;
    assert k < |names| && m.value == names[k] && AltMatches(q, names, k, m.index);
  }

  /** Position j is the start of m or lies inside it. */
  predicate Covers(m: Match, j: nat)
  {
    m.index <= j < After(m)
  }

  /** No occurrence the pattern would accept is skipped: each lies in some match. */
  lemma {:induction false} ScanComplete(q: string, names: seq<string>, i: nat, j: nat)
    requires i <= j <= |q| && AnyAltMatches(q, names, j)
    ensures exists t :: 0 <= t < |Scan(q, names, i)| && Covers(Scan(q, names, i)[t], j)
    decreases |q| + 1 - i
  {
    var ms := Scan(q, names, i);
    match FirstAlt(q, names, i, 0)
    case Some(k) =>
      var next := i + if |names[k]| == 0 then 1 else |names[k]|;
      var rest := Scan(q, names, next);
      assert ms == [Match(i, names[k])] + rest;
      if j < next {
        assert Covers(ms[0], j);
      } else {
        ScanComplete(q, names, next, j);
        var t :| 0 <= t < |rest| && Covers(rest[t], j);
        assert ms[t + 1] == rest[t];
      }
    case None =>
      if j > i {
        ScanComplete(q, names, i + 1, j);
      }
  }

  /** The parameters whose name equals n exactly (the SingleOrDefault predicate). */
  function Named(ps: seq<Param>, n: string): (r: seq<Param>)
    ensures |r| <= |ps|
  {
    if ps == [] then []
    else (if ps[0].name == n then [ps[0]] else []) + Named(ps[1..], n)
  }

  lemma {:induction false} NamedMembers(ps: seq<Param>, n: string)
    ensures forall p :: p in Named(ps, n) <==> p in ps && p.name == n
  {
    if ps != [] {
      NamedMembers(ps[1..], n);
      assert ps == [ps[0]] + ps[1..];
    }
  }

  /** `parameters.SingleOrDefault(x => x.Name == n)`: nothing, the one parameter, or an exception. */
  function Lookup(ps: seq<Param>, n: string): (r: Result<Option<Param>, Error>)
    ensures r == Ok(None) <==> (forall p :: p in ps ==> p.name != n)
    ensures r.Ok? && r.value.Some? ==> r.value.value in ps && r.value.value.name == n
    ensures r.Failure? <==> |Named(ps, n)| > 1
  {
    var c := Named(ps, n);
    NamedMembers(ps, n);
    if |c| == 0 then Ok(None)
    else
      assert c[0] in c;
      if |c| == 1 then Ok(Some(c[0])) else Failure(AmbiguousParameter(n))
  }

  /** The parameters bound for the matches ms, one per match that names a parameter. */
  function BindMatches(ms: seq<Match>, ps: seq<Param>): (r: Result<seq<Param>, Error>)
    ensures r.Ok? ==> |r.value| <= |ms| && forall p :: p in r.value ==> p in ps
    ensures r.Failure? ==> r.error.AmbiguousParameter?
  {
    if ms == [] then Ok([])
    else match BindMatches(ms[..|ms| - 1], ps)
      case Failure(e) => Failure(e)
      case Ok(bound) =>
        match Lookup(ps, ms[|ms| - 1].value)
        case Failure(e) => Failure(e)
        case Ok(None) => Ok(bound)
        case Ok(Some(p)) => Ok(bound + [p])
  }

  function Names(ps: seq<Param>): (ns: seq<string>)
    ensures |ns| == |ps| && forall i :: 0 <= i < |ps| ==> ns[i] == ps[i].name
  {
    if ps == [] then [] else [ps[0].name] + Names(ps[1..])
  }

  predicate NoNulls(arr: seq<Option<Param>>)
  {
    forall i :: 0 <= i < |arr| ==> arr[i].Some?
  }

  function Present(arr: seq<Option<Param>>): (ps: seq<Param>)
    requires NoNulls(arr)
    ensures |ps| == |arr| && forall i :: 0 <= i < |arr| ==> arr[i] == Some(ps[i])
  {
    if arr == [] then [] else [arr[0].value] + Present(arr[1..])
  }

  /** What the command ends up with, or the exception building it raises. */
  function BindParameters(query: string, parameters: ParamArray): (r: Result<seq<Param>, Error>)
    ensures r.Failure? ==> r.error == NullParameter || r.error.AmbiguousParameter?
    ensures r.Ok? ==> forall p :: p in r.value ==> parameters.Some? && Some(p) in parameters.value
  {
    match parameters
    case None => Ok([])
    case Some(arr) =>
      if |arr| == 0 then Ok([])
      else if !NoNulls(arr) then Failure(NullParameter)
      else var ps := Present(arr); BindMatches(Scan(query, Names(ps), 0), ps)
  }

  /** Binding fails iff the name of some match is declared more than once. */
  lemma {:induction false} BindFailsIffAmbiguous(ms: seq<Match>, ps: seq<Param>)
    ensures BindMatches(ms, ps).Failure? <==> exists t :: 0 <= t < |ms| && |Named(ps, ms[t].value)| > 1
  {
    if ms != [] {
      var n := |ms| - 1;
      var init := ms[..n];
      BindFailsIffAmbiguous(init, ps);
      BindStep(ms, ps, n);
      assert ms[..n + 1] == ms;
      if BindMatches(init, ps).Failure? {
        var t :| 0 <= t < |init| && |Named(ps, init[t].value)| > 1;
        assert ms[t] == init[t];
      } else if Lookup(ps, ms[n].value).Failure? {
        assert |Named(ps, ms[n].value)| > 1;
      } else {
        forall t | 0 <= t < |ms| ensures |Named(ps, ms[t].value)| <= 1 {
          if t < n {
            assert init[t] == ms[t];
          }
        }
      }
    }
  }

  /** With every match naming a declared parameter, a successful binding has one parameter per match, in match order. */
  lemma {:induction false} BindOnePerMatch(ms: seq<Match>, ps: seq<Param>)
    requires forall t :: 0 <= t < |ms| ==> ms[t].value in Names(ps)
    requires BindMatches(ms, ps).Ok?
    ensures var bound := BindMatches(ms, ps).value;
      |bound| == |ms| && forall t :: 0 <= t < |ms| ==> bound[t] in ps && bound[t].name == ms[t].value
  {
    if ms != [] {
      var n := |ms| - 1;
      var init := ms[..n];
      var last := ms[n].value;
      forall t | 0 <= t < |init| ensures init[t].value in Names(ps) {
        assert init[t] == ms[t];
      }
      var found := Lookup(ps, last);
      assert BindMatches(init, ps).Ok? && found.Ok? by {
        BindStep(ms, ps, n);
        assert ms[..n + 1] == ms;
      }
      assert found.value.Some? by {
        var i :| 0 <= i < |Names(ps)| && Names(ps)[i] == last;
        assert ps[i] in ps && ps[i].name == last;
      }
      BindOnePerMatch(init, ps);
      var bound := BindMatches(init, ps).value;
      var all := bound + [found.value.value];
      assert BindMatches(ms, ps) == Ok(all) by {
        BindStep(ms, ps, n);
        assert ms[..n + 1] == ms;
      }
      forall t | 0 <= t < |ms| ensures all[t] in ps && all[t].name == ms[t].value {
        if t < n {
          assert init[t] == ms[t] && all[t] == bound[t];
        }
      }
    }
  }

  /**
   * The binding order is the order of occurrence in the text: the k-th bound
   * parameter is the one named by the k-th match, and that name occurs there.
   * Binding fails only on a null element or on a matched name declared twice.
   */
  lemma BindInTextOrder(query: string, parameters: ParamArray)
    requires parameters.Some? && |parameters.value| > 0 && NoNulls(parameters.value)
    ensures var ps := Present(parameters.value);
      var ms := Scan(query, Names(ps), 0);
      && (BindParameters(query, parameters).Failure? <==>
            exists t :: 0 <= t < |ms| && |Named(ps, ms[t].value)| > 1)
      && (BindParameters(query, parameters).Ok? ==>
            var bound := BindParameters(query, parameters).value;
            && |bound| == |ms|
            && forall t :: 0 <= t < |ms| ==>
                 bound[t] in ps && bound[t].name == ms[t].value && OccursAt(query, ms[t].index, bound[t].name))
  {
    var ps := Present(parameters.value);
    var ms := Scan(query, Names(ps), 0);
    forall t | 0 <= t < |ms| ensures ms[t].value in Names(ps) && OccursAt(query, ms[t].index, ms[t].value) {
      MatchesAreDeclaredOccurrences(query, Names(ps), ms[t]);
    }
    BindFailsIffAmbiguous(ms, ps);
    if BindMatches(ms, ps).Ok? {
      BindOnePerMatch(ms, ps);
    } else {
      var t :| 0 <= t < |ms| && |Named(ps, ms[t].value)| > 1;
      assert var ps' := Present(parameters.value); var ms' := Scan(query, Names(ps'), 0);
        0 <= t < |ms'| && |Named(ps', ms'[t].value)| > 1;
    }
  }

  /** A declared name that never occurs in the text is never bound. */
  lemma AbsentNameNotBound(query: string, parameters: ParamArray, n: string)
    requires forall i :: !OccursAt(query, i, n)
    requires BindParameters(query, parameters).Ok?
    ensures forall p :: p in BindParameters(query, parameters).value ==> p.name != n
  {
    if parameters.Some? && |parameters.value| > 0 {
      var ps := Present(parameters.value);
      var ms := Scan(query, Names(ps), 0);
      BindInTextOrder(query, parameters);
      var bound := BindParameters(query, parameters).value;
      forall p | p in bound ensures p.name != n {
        var t :| 0 <= t < |bound| && bound[t] == p;
        assert OccursAt(query, ms[t].index, bound[t].name);
      }
    }
  }

  /** A null or empty parameter array binds nothing; a null element fails the whole command. */
  lemma NullOrEmptyBindsNothing(query: string, parameters: ParamArray)
    ensures parameters.None? ==> BindParameters(query, parameters) == Ok([])
    ensures parameters.Some? && |parameters.value| == 0 ==> BindParameters(query, parameters) == Ok([])
    ensures parameters.Some? && |parameters.value| > 0 && !NoNulls(parameters.value) ==>
      BindParameters(query, parameters) == Failure(NullParameter)
  {
  }

  /** `Regex.Matches` + the binding loop: one parameter appended per match, in match order. */
  method BuildCommand(query: string, parameters: ParamArray) returns (r: Result<Command, Error>)
    ensures r.Ok? <==> BindParameters(query, parameters).Ok?
    ensures r.Ok? ==> r.value == Command(query, BindParameters(query, parameters).value)
    ensures r.Failure? ==> r.error == BindParameters(query, parameters).error
  {
    if parameters.None? || |parameters.value| == 0 {
      return Ok(Command(query, []));
    }
    if !NoNulls(parameters.value) {
      return Failure(NullParameter);
    }
    var ps := Present(parameters.value);
    var ms := Scan(query, Names(ps), 0);
    var bound: seq<Param> := [];
    var t := 0;
    while t < |ms|
      invariant 0 <= t <= |ms|
      invariant BindMatches(ms[..t], ps) == Ok(bound)
    {
      var found := Lookup(ps, ms[t].value);
      BindStep(ms, ps, t);
      if found.Failure? {
        BindPrefixFailure(ms, ps, t + 1);
        return Failure(found.error);
      }
      if found.value.Some? {
        bound := bound + [found.value.value];
      }
      t := t + 1;
    }
    assert ms[..t] == ms;
    r := Ok(Command(query, bound));
  }

  /** Binding one more match appends what the lookup of its name found. */
  lemma BindStep(ms: seq<Match>, ps: seq<Param>, t: nat)
    requires t < |ms|
    ensures BindMatches(ms[..t + 1], ps) ==
      match BindMatches(ms[..t], ps)
      case Failure(e) => Failure(e)
      case Ok(bound) =>
        match Lookup(ps, ms[t].value)
        case Failure(e) => Failure(e)
        case Ok(None) => Ok(bound)
        case Ok(Some(p)) => Ok(bound + [p])
  {
    assert ms[..t + 1][..t] == ms[..t];
  }

  /** Once a prefix of the matches fails to bind, the whole list fails with the same exception. */
  lemma {:induction false} BindPrefixFailure(ms: seq<Match>, ps: seq<Param>, n: nat)
    requires n <= |ms| && BindMatches(ms[..n], ps).Failure?
    ensures BindMatches(ms, ps) == BindMatches(ms[..n], ps)
    decreases |ms| - n
  {
    if n < |ms| {
      assert ms[..n + 1][..n] == ms[..n];
      BindPrefixFailure(ms, ps, n + 1);
    } else {
      assert ms[..n] == ms;
    }
  }
}
