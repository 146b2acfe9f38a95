/**
 * Properties of the template realizer: the noun-phrase word order, the
 * article choice, the sentence template, and worked examples.
 */
module TemplateEnglishProperties {
  import opened Wrappers
  import opened Captions
  import opened TemplateEnglish

  // ---------------------------------------------------------------------
  // The word list is a stable partition of the attribute values
  // ---------------------------------------------------------------------

  /** The word list is the four groups one after the other. */
  lemma WordsAreGroups(attributes: seq<Attribute>)
    ensures Words(attributes) ==
      Group(attributes, 0) + Group(attributes, 1) + Group(attributes, 2) + Group(attributes, 3)
  {
    assert Grouped(attributes, 1) == Group(attributes, 0);
    assert Grouped(attributes, 2) == Group(attributes, 0) + Group(attributes, 1);
    assert Grouped(attributes, 3) == Grouped(attributes, 2) + Group(attributes, 2);
  }

  /** The multiset of all the words of the four groups. */
  ghost function GroupsMultiset(attributes: seq<Attribute>): multiset<string> {
    multiset(Group(attributes, 0)) + multiset(Group(attributes, 1))
    + multiset(Group(attributes, 2)) + multiset(Group(attributes, 3))
  }

  /** One more attribute adds its value to the group of its rank and to no other. */
  lemma GroupStep(attributes: seq<Attribute>, g: nat)
    requires attributes != []
    ensures var n := |attributes| - 1;
      multiset(Group(attributes, g)) == multiset(Group(attributes[..n], g))
        + (if Rank(attributes[n].predtype) == g then multiset{attributes[n].value} else multiset{})
  {
  }

  /** One more attribute adds its value to exactly one group. */
  lemma GroupsSnoc(attributes: seq<Attribute>)
    requires attributes != []
    ensures var n := |attributes| - 1;
      GroupsMultiset(attributes) == GroupsMultiset(attributes[..n]) + multiset{attributes[n].value}
  {
    var n := |attributes| - 1;
    var front := attributes[..n];
    var v := multiset{attributes[n].value};
    var r := Rank(attributes[n].predtype);
    var m0, m1, m2, m3 := multiset(Group(front, 0)), multiset(Group(front, 1)),
                          multiset(Group(front, 2)), multiset(Group(front, 3));
    var e0, e1, e2, e3 := if r == 0 then v else multiset{}, if r == 1 then v else multiset{},
                          if r == 2 then v else multiset{}, if r == 3 then v else multiset{};
    GroupStep(attributes, 0);
    GroupStep(attributes, 1);
    GroupStep(attributes, 2);
    GroupStep(attributes, 3);
    assert GroupsMultiset(attributes) == (m0 + e0) + (m1 + e1) + (m2 + e2) + (m3 + e3);
    OneOfFour(m0, m1, m2, m3, v, r);
  }

  /** Adding v to exactly one of four multisets adds it once to their union. */
  lemma OneOfFour(m0: multiset<string>, m1: multiset<string>, m2: multiset<string>, m3: multiset<string>,
                  v: multiset<string>, r: nat)
    requires r <= 3
    ensures (m0 + (if r == 0 then v else multiset{})) + (m1 + (if r == 1 then v else multiset{}))
          + (m2 + (if r == 2 then v else multiset{})) + (m3 + (if r == 3 then v else multiset{}))
         == m0 + m1 + m2 + m3 + v
  {
  }

  lemma ValuesSnoc(attributes: seq<Attribute>)
    requires attributes != []
    ensures var n := |attributes| - 1;
      multiset(Values(attributes)) == multiset(Values(attributes[..n])) + multiset{attributes[n].value}
  {
    var n := |attributes| - 1;
    assert Values(attributes) == Values(attributes[..n]) + [attributes[n].value];
  }

  /** Together the four groups hold every attribute value exactly once. */
  lemma {:induction false} GroupsCoverValues(attributes: seq<Attribute>)
    ensures GroupsMultiset(attributes) == multiset(Values(attributes))
    decreases |attributes|
  {
    if attributes != [] {
      GroupsCoverValues(attributes[..|attributes| - 1]);
      GroupsSnoc(attributes);
      ValuesSnoc(attributes);
    }
  }

  /**
   * Every attribute contributes its value exactly once: the words are a
   * permutation of the attribute values, so there are as many words as
   * attributes.
   */
  lemma WordsPermutation(attributes: seq<Attribute>)
    ensures multiset(Words(attributes)) == multiset(Values(attributes))
    ensures |Words(attributes)| == |attributes|
  {
    WordsAreGroups(attributes);
    GroupsCoverValues(attributes);
    assert |multiset(Words(attributes))| == |Words(attributes)|;
  }

  /** A group is empty when no attribute has its rank. */
  lemma {:induction false} GroupEmpty(attributes: seq<Attribute>, g: nat)
    requires forall j :: 0 <= j < |attributes| ==> Rank(attributes[j].predtype) != g
    ensures Group(attributes, g) == []
    decreases |attributes|
  {
    if attributes != [] {
      GroupEmpty(attributes[..|attributes| - 1], g);
    }
  }

  /** A group starts with the value of the first attribute of its rank. */
  lemma {:induction false} GroupHead(attributes: seq<Attribute>, i: nat)
    requires i < |attributes|
    requires forall j :: 0 <= j < i ==> Rank(attributes[j].predtype) != Rank(attributes[i].predtype)
    ensures |Group(attributes, Rank(attributes[i].predtype))| > 0
    ensures Group(attributes, Rank(attributes[i].predtype))[0] == attributes[i].value
    decreases |attributes|
  {
    var g := Rank(attributes[i].predtype);
    var front := attributes[..|attributes| - 1];
    if i == |attributes| - 1 {
      GroupEmpty(front, g);
    } else {
      GroupHead(front, i);
    }
  }

  /** Later groups only append: a non-empty prefix of the groups keeps its first word. */
  lemma {:induction false} GroupedHead(attributes: seq<Attribute>, k: nat, k2: nat)
    requires k <= k2 && |Grouped(attributes, k)| > 0
    ensures |Grouped(attributes, k2)| > 0 && Grouped(attributes, k2)[0] == Grouped(attributes, k)[0]
    decreases k2
  {
    if k < k2 {
      GroupedHead(attributes, k, k2 - 1);
    }
  }

  /** The groups before the rank of every attribute are empty. */
  lemma {:induction false} GroupedEmpty(attributes: seq<Attribute>, k: nat)
    requires forall j :: 0 <= j < |attributes| ==> Rank(attributes[j].predtype) >= k
    ensures Grouped(attributes, k) == []
    decreases k
  {
    if k > 0 {
      GroupedEmpty(attributes, k - 1);
      GroupEmpty(attributes, k - 1);
    }
  }

  /**
   * The first word is the value of the earliest attribute among those of
   * the best rank: the first colour if there is one, else the first
   * texture, else the first shape, else the first attribute.
   */
  lemma FirstWord(attributes: seq<Attribute>, i: nat)
    requires i < |attributes|
    requires forall j :: 0 <= j < |attributes| ==> Rank(attributes[i].predtype) <= Rank(attributes[j].predtype)
    requires forall j :: 0 <= j < i ==> Rank(attributes[j].predtype) != Rank(attributes[i].predtype)
    ensures |Words(attributes)| > 0 && Words(attributes)[0] == attributes[i].value
  {
    var g := Rank(attributes[i].predtype);
    GroupedEmpty(attributes, g);
    GroupHead(attributes, i);
    assert Grouped(attributes, g + 1) == Group(attributes, g);
    GroupedHead(attributes, g + 1, 4);
  }

  // ---------------------------------------------------------------------
  // The noun phrase
  // ---------------------------------------------------------------------

  /**
   * An entity without attributes is "a shape"; otherwise the phrase is the
   * article (see Article: "an" exactly when the first word starts with a
   * vowel letter), one space, and the words joined by single spaces.
   */
  lemma NounPhraseForm(entity: EntityType)
    ensures entity.value == [] ==> NounPhrase(entity) == "a shape"
    ensures entity.value != [] ==>
      var words := Words(entity.value);
      && |words| == |entity.value|
      && NounPhrase(entity) == Article(words[0]) + " " + Join(words)
  {
    WordsPermutation(entity.value);
  }

  // ---------------------------------------------------------------------
  // The sentence
  // ---------------------------------------------------------------------

  /** A realizable caption renders as the template filled with its two noun phrases and its direction. */
  lemma RealizedSentence(c: Caption)
    requires Realizable(c)
    ensures RealizeCaption(c) == Some(Sentence(
      NounPhrase(EntityTypeFromCaption(c.restrictor).value),
      NounPhrase(EntityTypeFromCaption(c.body.reference).value),
      RelationDirection(c.body.predtype, c.body.value).value))
  {
  }

  /** Each way a caption can fail to match the template gives no realization. */
  lemma UnrealizableCaptions(c: Caption)
    ensures !c.Existential? ==> RealizeCaption(c) == None
    ensures c.Existential? && !c.body.Relation? ==> RealizeCaption(c) == None
    ensures c.Existential? && c.body.Relation? && c.body.predtype != "x-rel" && c.body.predtype != "y-rel" ==>
      RealizeCaption(c) == None
    ensures c.Existential? && !IsEntityDescription(c.restrictor) ==> RealizeCaption(c) == None
    ensures c.Existential? && c.body.Relation? && !IsEntityDescription(c.body.reference) ==>
      RealizeCaption(c) == None
  {
  }
}

module TemplateEnglishExamples {
  import opened Wrappers
  import opened Captions
  import opened TemplateEnglish
  import opened TemplateEnglishProperties

  const Red := Attribute("color", "red")
  const Square := Attribute("shape", "square")

  lemma GroupOfOne(x: Attribute, g: nat)
    ensures Group([x], g) == if Rank(x.predtype) == g then [x.value] else []
  {
    assert [x][..0] == [];
  }

  lemma GroupOfTwo(x: Attribute, y: Attribute, g: nat)
    ensures Group([x, y], g) == Group([x], g) + if Rank(y.predtype) == g then [y.value] else []
  {
    assert [x, y][..1] == [x];
  }

  /** The words of a one-attribute entity: its value, whatever its predicate type. */
  lemma WordsOfOne(x: Attribute)
    ensures Words([x]) == [x.value]
  {
    WordsAreGroups([x]);
    GroupOfOne(x, 0);
    GroupOfOne(x, 1);
    GroupOfOne(x, 2);
    GroupOfOne(x, 3);
  }

  /** Words([x, y]) for a colour x and a shape y, in either order. */
  lemma WordsOfColorAndShape(x: Attribute, y: Attribute)
    requires x.predtype == "color" && y.predtype == "shape"
    ensures Words([x, y]) == [x.value, y.value]
    ensures Words([y, x]) == [x.value, y.value]
  {
    WordsAreGroups([x, y]);
    WordsAreGroups([y, x]);
    forall g | 0 <= g <= 3
      ensures Group([x, y], g) == (if g == 0 then [x.value] else []) + (if g == 2 then [y.value] else [])
      ensures Group([y, x], g) == (if g == 2 then [y.value] else []) + (if g == 0 then [x.value] else [])
    {
      GroupOfTwo(x, y, g);
      GroupOfOne(x, g);
      GroupOfTwo(y, x, g);
      GroupOfOne(y, g);
    }
  }

  lemma JoinTwo(x: string, y: string)
    ensures Join([x, y]) == x + " " + y
  {
    assert [x, y][1..] == [y];
  }

  lemma RedSquarePhrase(words: seq<string>)
    requires words == ["red", "square"]
    ensures Article(words[0]) + " " + Join(words) == "a red square"
  {
    JoinTwo("red", "square");
    assert Article("red") == "a" by {
      assert "red"[0] == 'r';
    }
    assert "a" + " " + ("red" + " " + "square") == "a red square";
  }

  lemma RedSquare()
    ensures NounPhrase(EntityType([Red, Square])) == "a red square"
    ensures NounPhrase(EntityType([Square, Red])) == "a red square"
  {
    WordsOfColorAndShape(Red, Square);
    RedSquarePhrase(Words([Red, Square]));
  }

  lemma Orange()
    ensures NounPhrase(EntityType([Attribute("color", "orange")])) == "an orange"
  {
    WordsOfOne(Attribute("color", "orange"));
  }

  lemma Circle()
    ensures NounPhrase(EntityType([Attribute("shape", "circle")])) == "a circle"
  {
    WordsOfOne(Attribute("shape", "circle"));
    assert Article("circle") == "a" by {
      assert "circle"[0] == 'c';
    }
    assert "a" + " " + "circle" == "a circle";
  }

  lemma NoAttributes()
    ensures NounPhrase(EntityType([])) == "a shape"
  {
  }

  /** The worked example: a red square to the left of a circle. */
  lemma EndToEnd(subject: EntityType, reference: EntityType)
    requires subject == EntityType([Red, Square])
    requires reference == EntityType([Attribute("shape", "circle")])
    ensures RealizeCaption(Existential(Entity(subject), Relation("x-rel", -1, Entity(reference))))
         == Some(Sentence("a red square", "a circle", "left"))
  {
    RealizedSentence(Existential(Entity(subject), Relation("x-rel", -1, Entity(reference))));
    RedSquare();
    Circle();
  }
}
