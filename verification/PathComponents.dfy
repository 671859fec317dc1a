/** Slash-separated components of a path text, and the spellings that keep them. */
module PathComponents {
  import opened JsText

  predicate EndsInSlash(s: Text) {
    s != [] && s[|s| - 1] == SLASH
  }

  // split('/').filter(Boolean)
  function Components(s: Text): (cs: seq<Text>)
    ensures s != [] && !EndsInSlash(s) ==> cs != []
  {
    if s == [] then []
    else
      var init, unit := s[..|s| - 1], s[|s| - 1];
      var cs := Components(init);
      if unit == SLASH then cs
      else if init == [] || EndsInSlash(init) then cs + [[unit]]
      else cs[..|cs| - 1] + [cs[|cs| - 1] + [unit]]
  }

  // replace(/\/+/g, '/')
  function Collapse(s: Text): Text {
    if s == [] then []
    else
      var before := Collapse(s[..|s| - 1]);
      if s[|s| - 1] == SLASH && EndsInSlash(before) then before else before + [s[|s| - 1]]
  }

  // replace(/\/+$/, '')
  function StripSlashes(s: Text): Text {
    if EndsInSlash(s) then StripSlashes(s[..|s| - 1]) else s
  }

  function MapAll(fold: Unit -> Unit, cs: seq<Text>): seq<Text> {
    seq(|cs|, i requires 0 <= i < |cs| => Map(fold, cs[i]))
  }

  predicate Component(c: Text) {
    c != [] && SLASH !in c
  }

  lemma {:induction false} ComponentsAreComponents(s: Text)
    ensures forall c :: c in Components(s) ==> Component(c) && forall u :: u in c ==> u in s
  {
    if s != [] {
      var init, unit := s[..|s| - 1], s[|s| - 1];
      ComponentsAreComponents(init);
      assert s == init + [unit];
      var cs := Components(init);
      if unit != SLASH && init != [] && !EndsInSlash(init) {
        assert cs[|cs| - 1] in cs;
        forall c | c in Components(s) ensures Component(c) && forall u :: u in c ==> u in s {
          if c != cs[|cs| - 1] + [unit] { assert c in cs; }
        }
      }
    }
  }

  lemma {:induction false} CollapseKeepsComponents(s: Text)
    ensures Components(Collapse(s)) == Components(s)
    ensures EndsInSlash(Collapse(s)) == EndsInSlash(s)
    ensures (Collapse(s) == []) == (s == [])
  {
    if s != [] {
      CollapseKeepsComponents(s[..|s| - 1]);
      var before := Collapse(s[..|s| - 1]);
      if Collapse(s) != before {
        assert Collapse(s)[..|Collapse(s)| - 1] == before;
      }
    }
  }

  lemma {:induction false} StripKeepsComponents(s: Text)
    ensures Components(StripSlashes(s)) == Components(s)
    ensures StripSlashes(s) <= s && !EndsInSlash(StripSlashes(s))
  {
    if EndsInSlash(s) { StripKeepsComponents(s[..|s| - 1]); }
  }

  predicate KeepsSlash(fold: Unit -> Unit) {
    forall u :: fold(u) == SLASH <==> u == SLASH
  }

  lemma FoldNewComponent(fold: Unit -> Unit, cs: seq<Text>, unit: Unit)
    ensures MapAll(fold, cs + [[unit]]) == MapAll(fold, cs) + [[fold(unit)]]
  {
    assert Map(fold, [unit]) == [fold(unit)];
  }

  lemma FoldLongerComponent(fold: Unit -> Unit, cs: seq<Text>, unit: Unit)
    requires cs != []
    ensures (var longer := cs[|cs| - 1] + [unit];
             MapAll(fold, cs[..|cs| - 1] + [longer])
             == MapAll(fold, cs)[..|cs| - 1] + [MapAll(fold, cs)[|cs| - 1] + [fold(unit)]])
  {
    var last := cs[|cs| - 1];
    assert Map(fold, last + [unit]) == Map(fold, last) + [fold(unit)];
  }

  lemma {:induction false} FoldKeepsComponents(fold: Unit -> Unit, s: Text)
    requires KeepsSlash(fold)
    ensures Components(Map(fold, s)) == MapAll(fold, Components(s))
  {
    if s != [] {
      var init, unit := s[..|s| - 1], s[|s| - 1];
      FoldKeepsComponents(fold, init);
      assert Map(fold, s)[..|s| - 1] == Map(fold, init);
      if unit != SLASH {
        if init == [] || EndsInSlash(init) {
          FoldNewComponent(fold, Components(init), unit);
        } else {
          FoldLongerComponent(fold, Components(init), unit);
        }
      }
    }
  }

  lemma {:induction false} JoinAppend(cs: seq<Text>, c: Text, separator: Unit)
    ensures Join(cs + [c], separator) == if cs == [] then c else Join(cs, separator) + [separator] + c
  {
    if cs == [] {
      assert cs + [c] == [c];
    } else if |cs| == 1 {
      assert (cs + [c])[1..] == [c];
    } else {
      JoinAppend(cs[1..], c, separator);
      assert (cs + [c])[1..] == cs[1..] + [c];
      assert Join(cs + [c], separator) == cs[0] + [separator] + Join(cs[1..] + [c], separator);
      assert cs[0] + [separator] + (Join(cs[1..], separator) + [separator] + c)
             == cs[0] + [separator] + Join(cs[1..], separator) + [separator] + c;
    }
  }

  lemma {:induction false} ComponentAfterSlash(s: Text, c: Text)
    requires Component(c) && (s == [] || EndsInSlash(s))
    ensures Components(s + c) == Components(s) + [c]
  {
    var init := c[..|c| - 1];
    assert (s + c)[..|s + c| - 1] == s + init;
    assert c == init + [c[|c| - 1]];
    assert forall u :: u in init ==> u in c;
    if init == [] {
      assert s + init == s;
    } else {
      ComponentAfterSlash(s, init);
      assert !EndsInSlash(s + init);
    }
  }

  lemma {:induction false} JoinKeepsComponents(cs: seq<Text>)
    requires forall c :: c in cs ==> Component(c)
    ensures Components(Join(cs, SLASH)) == cs
    ensures cs != [] ==> Join(cs, SLASH) != [] && !EndsInSlash(Join(cs, SLASH))
  {
    if cs != [] {
      var init, c := cs[..|cs| - 1], cs[|cs| - 1];
      assert cs == init + [c];
      JoinKeepsComponents(init);
      JoinAppend(init, c, SLASH);
      if init == [] {
        ComponentAfterSlash([], c);
        assert [] + c == c;
      } else {
        var before := Join(init, SLASH) + [SLASH];
        assert before[..|before| - 1] == Join(init, SLASH);
        ComponentAfterSlash(before, c);
      }
    }
  }

  // A text with its slashes collapsed is its components, joined, with the slash it
  // starts with and the slash it ends in.
  function Spelled(s: Text): Text {
    Lead(s) + Join(Components(s), SLASH)
  }

  // The slash a spelling starts with, when a component follows.
  function Lead(s: Text): Text {
    if s != [] && s[0] == SLASH && Components(s) != [] then [SLASH] else []
  }

  lemma Associates(a: Text, b: Text, c: Text)
    ensures a + b + c == a + (b + c)
  {
  }

  lemma SpelledSlash(s: Text)
    ensures Spelled(s + [SLASH]) == Spelled(s)
  {
    var t := s + [SLASH];
    assert t[..|t| - 1] == s;
    assert Components(t) == Components(s);
    assert Lead(t) == Lead(s);
  }

  lemma {:induction false} AllSlashes(s: Text)
    requires Components(s) == []
    ensures s == [] || (s[0] == SLASH && EndsInSlash(s))
  {
    if s != [] { AllSlashes(s[..|s| - 1]); }
  }

  lemma SpelledNewComponent(s: Text, unit: Unit)
    requires unit != SLASH && (s == [] || EndsInSlash(s))
    ensures Spelled(s + [unit]) == Spelled(s) + (if s == [] then [] else [SLASH]) + [unit]
  {
    var t, cs := s + [unit], Components(s);
    assert t[..|t| - 1] == s;
    assert Components(t) == cs + [[unit]];
    JoinAppend(cs, [unit], SLASH);
    if cs == [] {
      AllSlashes(s);
      assert Spelled(s) == [];
    } else {
      assert Lead(t) == Lead(s);
      Associates(Lead(s), Join(cs, SLASH), [SLASH]);
      Associates(Lead(s), Join(cs, SLASH) + [SLASH], [unit]);
    }
  }

  lemma SpelledLongerComponent(s: Text, unit: Unit)
    requires unit != SLASH && s != [] && !EndsInSlash(s)
    ensures Spelled(s + [unit]) == Spelled(s) + [unit]
  {
    var t, cs := s + [unit], Components(s);
    assert t[..|t| - 1] == s;
    var front, last := cs[..|cs| - 1], cs[|cs| - 1];
    assert cs == front + [last];
    JoinAppend(front, last, SLASH);
    JoinAppend(front, last + [unit], SLASH);
    assert Lead(t) == Lead(s);
    if front != [] { Associates(Join(front, SLASH) + [SLASH], last, [unit]); }
    Associates(Lead(s), Join(cs, SLASH), [unit]);
  }

  lemma {:induction false} CollapseSpells(s: Text)
    ensures EndsInSlash(s) ==> Collapse(s) == Spelled(s) + [SLASH]
    ensures !EndsInSlash(s) ==> Collapse(s) == Spelled(s)
  {
    if s == [] {
      assert Spelled(s) == [];
    } else {
      CollapseSpells(s[..|s| - 1]);
      CollapseKeepsComponents(s[..|s| - 1]);
      CollapseSpellsStep(s[..|s| - 1], s[|s| - 1]);
      assert s == s[..|s| - 1] + [s[|s| - 1]];
    }
  }

  lemma CollapseSpellsStep(init: Text, unit: Unit)
    requires EndsInSlash(init) ==> Collapse(init) == Spelled(init) + [SLASH]
    requires !EndsInSlash(init) ==> Collapse(init) == Spelled(init)
    requires EndsInSlash(Collapse(init)) == EndsInSlash(init)
    ensures (var s := init + [unit];
             (EndsInSlash(s) ==> Collapse(s) == Spelled(s) + [SLASH])
             && (!EndsInSlash(s) ==> Collapse(s) == Spelled(s)))
  {
    var s := init + [unit];
    assert s[..|s| - 1] == init;
    if unit == SLASH {
      SpelledSlash(init);
    } else if init == [] || EndsInSlash(init) {
      SpelledNewComponent(init, unit);
    } else {
      SpelledLongerComponent(init, unit);
    }
  }

  // ---- Normalisation of node:path ----

  const DOTDOT: Text := [DOT, DOT]

  predicate Dotless(cs: seq<Text>) {
    [DOT] !in cs && DOTDOT !in cs
  }

  // Dots stand for nothing; two dots drop the component before them.
  function Resolve(cs: seq<Text>, allowAbove: bool): seq<Text> {
    if cs == [] then []
    else
      var out, c := Resolve(cs[..|cs| - 1], allowAbove), cs[|cs| - 1];
      if c == [DOT] then out
      else if c != DOTDOT then out + [c]
      else if out != [] && out[|out| - 1] != DOTDOT then out[..|out| - 1]
      else if allowAbove then out + [c]
      else out
  }

  lemma {:induction false} ResolveKeepsPlain(cs: seq<Text>, allowAbove: bool)
    requires Dotless(cs)
    ensures Resolve(cs, allowAbove) == cs
  {
    if cs != [] {
      var init := cs[..|cs| - 1];
      assert cs[|cs| - 1] in cs && cs == init + [cs[|cs| - 1]];
      ResolveKeepsPlain(init, allowAbove);
    }
  }
}
