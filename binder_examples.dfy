/**
 * Worked bindings that pin down the alternation semantics on concrete
 * query texts: similar names, the unguarded last name, declaration order
 * against text order, repeated and duplicated names.
 */
module BinderExamples {
  import opened Common
  import opened Data
  import opened ParameterBinder

  /** `@Category` (not last) does not match inside `@CategoryID`; each token gets its own name. */
  lemma SimilarNamesNotCrossBound()
    ensures Scan("@CategoryID,@Category", ["@Category", "@CategoryID"], 0)
         == [Match(0, "@CategoryID"), Match(12, "@Category")]
  {
    var q := "@CategoryID,@Category";
    var names := ["@Category", "@CategoryID"];
    assert q[0..9] == "@Category";
    assert !AltMatches(q, names, 0, 0);
    assert q[0..11] == "@CategoryID";
    assert FirstAlt(q, names, 0, 0) == Some(1);
    assert FirstAlt(q, names, 11, 0) == None;
    assert q[12..21] == "@Category";
    assert FirstAlt(q, names, 12, 0) == Some(0);
    assert FirstAlt(q, names, 21, 0) == None;
    assert Scan(q, names, 21) == [];
    assert Scan(q, names, 0) == [Match(0, "@CategoryID")] + Scan(q, names, 11);
  }

  /** The last declared name carries no `\b`, so it matches the front of a longer token. */
  lemma LastNameMatchesPrefix()
    ensures Scan("@CategoryName", ["@CategoryID", "@Category"], 0) == [Match(0, "@Category")]
  {
    var q := "@CategoryName";
    var names := ["@CategoryID", "@Category"];
    assert q[0..11] != "@CategoryID" by { assert q[9] != "@CategoryID"[9]; }
    assert q[0..9] == "@Category";
    assert FirstAlt(q, names, 0, 0) == Some(1);
    assert Scan(q, names, 9) == [] by {
      assert forall i :: 9 <= i <= 13 ==> FirstAlt(q, names, i, 0) == None;
      assert Scan(q, names, 13) == [];
      assert Scan(q, names, 12) == [];
      assert Scan(q, names, 11) == [];
      assert Scan(q, names, 10) == [];
    }
  }

  /** The first alternative in declaration order wins, not the longest: `@a` is taken inside `@a-x`. */
  lemma FirstAlternativeWins()
    ensures Scan("@a-x", ["@a", "@a-x"], 0) == [Match(0, "@a")]
  {
    var q := "@a-x";
    var names := ["@a", "@a-x"];
    assert q[0..2] == "@a";
    assert Boundary(q, 2);
    assert FirstAlt(q, names, 0, 0) == Some(0);
    assert FirstAlt(q, names, 2, 0) == None;
    assert FirstAlt(q, names, 3, 0) == None;
    assert FirstAlt(q, names, 4, 0) == None;
    assert Scan(q, names, 2) == [];
  }

  /** With `@b` declared before `@a`, the scan of `@a,@b` still finds `@a` first. */
  lemma ScanFollowsText()
    ensures Scan("@a,@b", ["@b", "@a"], 0) == [Match(0, "@a"), Match(3, "@b")]
  {
    var q := "@a,@b";
    var names := ["@b", "@a"];
    assert q[0..2] == "@a" && q[3..5] == "@b";
    assert q[0..2] != "@b" by { assert q[1] == 'a'; }
    assert FirstAlt(q, names, 0, 0) == Some(1);
    assert q[2..4] != "@b" && q[2..4] != "@a" by { assert q[2] == ','; }
    assert FirstAlt(q, names, 2, 0) == None;
    assert FirstAlt(q, names, 3, 0) == Some(0);
    assert FirstAlt(q, names, 5, 0) == None;
    assert Scan(q, names, 5) == [];
  }

  /** Two matches whose names each look up one parameter bind those two, in match order. */
  lemma BindTwo(ps: seq<Param>, m1: Match, m2: Match, p1: Param, p2: Param)
    requires Lookup(ps, m1.value) == Ok(Some(p1)) && Lookup(ps, m2.value) == Ok(Some(p2))
    ensures BindMatches([m1, m2], ps) == Ok([p1, p2])
  {
    var ms := [m1, m2];
    assert ms[..0] == [] && ms[..2] == ms;
    BindStep(ms, ps, 0);
    assert BindMatches(ms[..0], ps) == Ok([]) && [] + [p1] == [p1];
    assert BindMatches(ms[..1], ps) == Ok([p1]);
    BindStep(ms, ps, 1);
    assert [p1] + [p2] == [p1, p2];
  }

  /** Parameters are bound in the order their names occur in the text, not the order they were declared. */
  lemma BoundInTextOrderNotDeclarationOrder(a: Value, b: Value)
    ensures BindParameters("@a,@b", Some([Some(Param("@b", b, Numeric)), Some(Param("@a", a, Numeric))]))
         == Ok([Param("@a", a, Numeric), Param("@b", b, Numeric)])
  {
    var pa, pb := Param("@a", a, Numeric), Param("@b", b, Numeric);
    var ps := Present([Some(pb), Some(pa)]);
    assert ps == [pb, pa];
    assert Names(ps) == ["@b", "@a"];
    ScanFollowsText();
    assert "@a" != "@b" by { assert "@a"[1] != "@b"[1]; }
    assert ps[1..] == [pa] && ps[1..][1..] == [];
    assert Named(ps, "@a") == [pa] && Named(ps, "@b") == [pb];
    BindTwo(ps, Match(0, "@a"), Match(3, "@b"), pa, pb);
  }

  /** A name occurring twice is bound twice. */
  lemma RepeatedNameBoundTwice(v: Value)
    ensures BindParameters("@a=@a", Some([Some(Param("@a", v, Integer))]))
         == Ok([Param("@a", v, Integer), Param("@a", v, Integer)])
  {
    var q := "@a=@a";
    var p := Param("@a", v, Integer);
    var params := Some([Some(p)]);
    var ps := Present(params.value);
    assert ps == [p];
    var ms := Scan(q, Names(ps), 0);
    assert ms == [Match(0, "@a"), Match(3, "@a")] by {
      var names := Names(ps);
      assert names == ["@a"];
      assert q[0..2] == "@a" && q[3..5] == "@a";
      assert FirstAlt(q, names, 0, 0) == Some(0);
      assert q[2..4] != "@a" by { assert q[2] == '='; }
      assert FirstAlt(q, names, 2, 0) == None;
      assert FirstAlt(q, names, 3, 0) == Some(0);
      assert FirstAlt(q, names, 5, 0) == None;
      assert Scan(q, names, 5) == [];
    }
    assert Named(ps, "@a") == [p];
    BindInTextOrder(q, params);
    var r := BindParameters(q, params);
    assert r.Ok?;
    assert |r.value| == 2 && r.value[0] in ps && r.value[1] in ps;
    assert r.value == [p, p];
  }

  /** Two parameters with the same name make the lookup throw once that name is matched. */
  lemma DuplicateNameThrows(v: Value, w: Value)
    ensures BindParameters("@a", Some([Some(Param("@a", v, Integer)), Some(Param("@a", w, Integer))]))
         == Failure(AmbiguousParameter("@a"))
  {
    var q := "@a";
    var p1, p2 := Param("@a", v, Integer), Param("@a", w, Integer);
    var ps := Present([Some(p1), Some(p2)]);
    assert ps == [p1, p2];
    var names := Names(ps);
    assert names == ["@a", "@a"];
    assert FirstAlt(q, names, 0, 0) == Some(0);
    var ms := Scan(q, names, 0);
    assert ms == [Match(0, "@a")] by {
      assert FirstAlt(q, names, 2, 0) == None;
      assert Scan(q, names, 2) == [];
    }
    assert Named(ps, "@a") == [p1, p2];
    assert ms[..0] == [] && ms[..1] == ms;
    BindStep(ms, ps, 0);
  }
}
