/**
 * The template English realizer: it recognises one caption shape, an
 * existential whose body is a spatial relation between two entity
 * descriptions, and renders it into one fixed English sentence.
 */
module TemplateEnglish {
  import opened Wrappers
  import opened Captions
  import opened LanguageSpec

  // ---------------------------------------------------------------------
  // Which captions the template covers
  // ---------------------------------------------------------------------

  /** An EntityType directly, or a Selector around one. */
  predicate IsEntityDescription(c: Caption) {
    c.Entity? || c.Selector?
  }

  /** The one caption shape the template realizes. */
  predicate Realizable(c: Caption) {
    && c.Existential?
    && c.body.Relation?
    && (c.body.predtype == "x-rel" || c.body.predtype == "y-rel")
    && IsEntityDescription(c.restrictor)
    && IsEntityDescription(c.body.reference)
  }

  /** The entity description a caption stands for, if any. */
  function EntityTypeFromCaption(c: Caption): (r: Option<EntityType>)
    ensures r.Some? <==> IsEntityDescription(c)
    ensures c.Entity? ==> r == Some(c.entityType)
    ensures c.Selector? ==> r == Some(c.scope)
  {
    match c
    case Entity(entityType) => Some(entityType)
    case Selector(scope) => Some(scope)
    case _ => None
  }

  // ---------------------------------------------------------------------
  // The direction table
  // ---------------------------------------------------------------------

  /** The direction word for a relation; only the value -1 selects left / above. */
  function RelationDirection(predtype: string, value: int): (r: Option<string>)
    ensures r.Some? <==> predtype == "x-rel" || predtype == "y-rel"
    ensures predtype == "x-rel" && value == -1 ==> r == Some("left")
    ensures predtype == "x-rel" && value != -1 ==> r == Some("right")
    ensures predtype == "y-rel" && value == -1 ==> r == Some("above")
    ensures predtype == "y-rel" && value != -1 ==> r == Some("below")
  {
    if predtype == "x-rel" then Some(if value == -1 then "left" else "right")
    else if predtype == "y-rel" then Some(if value == -1 then "above" else "below")
    else None
  }

  /** Reads a direction word back: its axis and whether it means the value -1. */
  function DirectionMeaning(direction: string): Option<(string, bool)> {
    if direction == "left" then Some(("x-rel", true))
    else if direction == "right" then Some(("x-rel", false))
    else if direction == "above" then Some(("y-rel", true))
    else if direction == "below" then Some(("y-rel", false))
    else None
  }

  /** The direction word determines the axis and the sign test, and back. */
  lemma DirectionRoundTrip(predtype: string, value: int, direction: string)
    ensures RelationDirection(predtype, value) == Some(direction) ==>
      DirectionMeaning(direction) == Some((predtype, value == -1))
    ensures DirectionMeaning(direction) == Some((predtype, value == -1)) ==>
      RelationDirection(predtype, value) == Some(direction)
  {
  }

  // ---------------------------------------------------------------------
  // Noun phrases
  // ---------------------------------------------------------------------

  /** The attribute predicate types that come first, in this order. */
  const Priority: seq<string> := ["color", "texture", "shape"]

  /** The group of an attribute in the word order: its place in Priority, or 3 for any other. */
  function Rank(predtype: string): (g: nat)
    ensures g <= 3
  {
    if predtype == "color" then 0
    else if predtype == "texture" then 1
    else if predtype == "shape" then 2
    else 3
  }

  /** The values of the attributes of group `g`, in their original order. */
  function Group(attributes: seq<Attribute>, g: nat): seq<string>
    decreases |attributes|
  {
    if attributes == [] then []
    else
      var last := attributes[|attributes| - 1];
      Group(attributes[..|attributes| - 1], g) + (if Rank(last.predtype) == g then [last.value] else [])
  }

  /** Extending the attributes by one extends each group by at most that attribute's value. */
  lemma GroupSnoc(attributes: seq<Attribute>, i: nat, g: nat)
    requires i < |attributes|
    ensures Group(attributes[..i + 1], g) ==
      Group(attributes[..i], g) + (if Rank(attributes[i].predtype) == g then [attributes[i].value] else [])
  {
    assert attributes[..i + 1][..i] == attributes[..i];
  }

  /** A predicate type is the p-th priority entry exactly when its rank is p. */
  lemma RankOfPriority(predtype: string, p: nat)
    requires p < |Priority|
    ensures predtype == Priority[p] <==> Rank(predtype) == p
  {
  }

  /** Exactly the predicate types outside Priority have rank 3. */
  lemma RankOfOther(predtype: string)
    ensures predtype !in Priority <==> Rank(predtype) == 3
  {
  }

  /** Groups 0 to k - 1, one after the other. */
  function Grouped(attributes: seq<Attribute>, k: nat): seq<string>
    decreases k
  {
    if k == 0 then [] else Grouped(attributes, k - 1) + Group(attributes, k - 1)
  }

  /** The words of a noun phrase: colours, textures, shapes, then everything else. */
  function Words(attributes: seq<Attribute>): seq<string> {
    Grouped(attributes, 4)
  }

  /** The attribute values in their original order. */
  function Values(attributes: seq<Attribute>): (vs: seq<string>)
    ensures |vs| == |attributes|
    ensures forall i :: 0 <= i < |attributes| ==> vs[i] == attributes[i].value
  {
    seq(|attributes|, i requires 0 <= i < |attributes| => attributes[i].value)
  }

  /** Python's `' '.join(words)`. */
  function Join(words: seq<string>): (r: string)
    ensures words == [] ==> r == ""
    ensures words != [] ==> |r| >= |words[0]| && r[..|words[0]|] == words[0]
    decreases |words|
  {
    if words == [] then ""
    else if |words| == 1 then words[0]
    else words[0] + " " + Join(words[1..])
  }

  /** ASCII lower-casing of one character. */
  function LowerChar(c: char): char {
    if 'A' <= c <= 'Z' then (c as int + 32) as char else c
  }

  function Lower(s: string): (r: string)
    ensures |r| == |s|
    ensures forall i :: 0 <= i < |s| ==> r[i] == LowerChar(s[i])
  {
    seq(|s|, i requires 0 <= i < |s| => LowerChar(s[i]))
  }

  /** Whether `word[:1].lower()` is one of the five vowels. */
  function StartsWithVowel(word: string): (r: bool)
    ensures r <==> |word| > 0 && word[0] in "aeiouAEIOU"
  {
    var first := Lower(word[..if |word| > 0 then 1 else 0]);
    assert |word| > 0 ==> first == [LowerChar(word[0])];
    first in ["a", "e", "i", "o", "u"]
  }

  /** The indefinite article for a phrase whose first word is `word`. */
  function Article(word: string): (a: string)
    ensures a == "an" || a == "a"
    ensures a == "an" <==> |word| > 0 && word[0] in "aeiouAEIOU"
  {
    if StartsWithVowel(word) then "an" else "a"
  }

  /** The noun phrase for an entity description. */
  function NounPhrase(entity: EntityType): string {
    var words := Words(entity.value);
    if words == [] then "a shape" else Article(words[0]) + " " + Join(words)
  }

  // ---------------------------------------------------------------------
  // The sentence
  // ---------------------------------------------------------------------

  /** The opening words every realization starts with. */
  const Opening: string := "there are two shapes "

  /** The text between the reference phrase and the direction word. */
  const Question: string :=
    " . what is the spatial relationship from the first shape to the second shape ? the spatial relation is "

  /** The fixed sentence template, with the two noun phrases and the direction word filled in. */
  function Sentence(subject: string, reference: string, direction: string): (s: string)
    ensures |s| > |Opening| && s[..|Opening|] == Opening
  {
    var rest := subject + " and " + reference + Question + direction + " .";
    assert (Opening + rest)[..|Opening|] == Opening;
    Opening + rest
  }

  /** The realization of one caption, `None` when its shape is not the template's. */
  function RealizeCaption(caption: Caption): (r: Option<string>)
    ensures r.Some? <==> Realizable(caption)
    ensures r.Some? ==> |r.value| > |Opening| && r.value[..|Opening|] == Opening
  {
    match caption
    case Existential(restrictor, body) =>
      (match body
       case Relation(predtype, value, reference) =>
         var direction := RelationDirection(predtype, value);
         if direction.None? then None
         else
           var subjectType := EntityTypeFromCaption(restrictor);
           var referenceType := EntityTypeFromCaption(reference);
           if subjectType.None? || referenceType.None? then None
           else
             var subject := NounPhrase(subjectType.value);
             var referencePhrase := NounPhrase(referenceType.value);
             Some(Sentence(subject, referencePhrase, direction.value))
       case _ => None)
    case _ => None
  }

  /** What the realizer returns for one entry of its input list. */
  function Realized(caption: Option<Caption>): (r: string)
    ensures caption.None? ==> r == ""
    ensures caption.Some? && !Realizable(caption.value) ==> r == ""
    ensures caption.Some? && Realizable(caption.value) ==> RealizeCaption(caption.value) == Some(r)
  {
    match caption
    case None => ""
    case Some(c) => RealizeCaption(c).GetOr("")
  }

  // ---------------------------------------------------------------------
  // The realizer object
  // ---------------------------------------------------------------------

  class TemplateEnglishRealizer {
    /** Normalised attribute predicate type -> its normalised value names. */
    var attributes: map<Value, set<Value>>
    /** Normalised relation predicate type -> its normalised value names. */
    var relations: map<Value, set<Value>>

    /** A realizer whose vocabulary is loaded from the decoded document `spec`. */
    constructor (spec: Spec)
      ensures attributes == AttributeMap(spec.attributes)
      ensures relations == RelationMap(spec.relations)
    {
      attributes, relations := map[], map[];
      new;
      LoadLanguageSpec(spec);
    }

    /** Builds both vocabulary maps from the decoded document. */
    method LoadLanguageSpec(spec: Spec)
      modifies this
      ensures attributes == AttributeMap(spec.attributes)
      ensures relations == RelationMap(spec.relations)
    {
      attributes := map[];
      for i := 0 to |spec.attributes|
        invariant attributes == AttributeMap(spec.attributes[..i])
      {
        assert spec.attributes[..i + 1][..i] == spec.attributes[..i];
        var entry := spec.attributes[i];
        if entry.predtype !in Reserved {
          attributes := attributes[ParseValue(entry.predtype) := ValueSet(entry.values)];
        }
      }
      assert spec.attributes[..|spec.attributes|] == spec.attributes;
      relations := map[];
      for i := 0 to |spec.relations|
        invariant attributes == AttributeMap(spec.attributes)
        invariant relations == RelationMap(spec.relations[..i])
      {
        assert spec.relations[..i + 1][..i] == spec.relations[..i];
        var entry := spec.relations[i];
        relations := relations[ParseValue(entry.predtype) := ValueSet(entry.values)];
      }
      assert spec.relations[..|spec.relations|] == spec.relations;
    }

    /**
     * One string per caption, in order: the empty string for a missing or
     * unrealizable caption, its realization otherwise.
     */
    method Realize(captions: seq<Option<Caption>>) returns (strings: seq<string>)
      ensures |strings| == |captions|
      ensures forall i :: 0 <= i < |captions| && captions[i].None? ==> strings[i] == ""
      ensures forall i :: 0 <= i < |captions| && captions[i].Some? && !Realizable(captions[i].value) ==>
        strings[i] == ""
      ensures forall i :: 0 <= i < |captions| && captions[i].Some? && Realizable(captions[i].value) ==>
        RealizeCaption(captions[i].value) == Some(strings[i])
    {
      strings := [];
      for i := 0 to |captions|
        invariant |strings| == i
        invariant forall j :: 0 <= j < i ==> strings[j] == Realized(captions[j])
      {
        strings := strings + [Realized(captions[i])];
      }
    }

    /** The noun phrase for an entity description, built word by word. */
    method EntityPhrase(entity: EntityType) returns (phrase: string)
      ensures phrase == NounPhrase(entity)
    {
      var attributes := entity.value;
      var words: seq<string> := [];
      for p := 0 to |Priority|
        invariant words == Grouped(attributes, p)
      {
        ghost var before := words;
        for i := 0 to |attributes|
          invariant words == before + Group(attributes[..i], p)
        {
          GroupSnoc(attributes, i, p);
          RankOfPriority(attributes[i].predtype, p);
          if attributes[i].predtype == Priority[p] {
            words := words + [attributes[i].value];
          }
        }
        assert attributes[..|attributes|] == attributes;
      }
      ghost var before := words;
      for i := 0 to |attributes|
        invariant words == before + Group(attributes[..i], 3)
      {
        GroupSnoc(attributes, i, 3);
        RankOfOther(attributes[i].predtype);
        if attributes[i].predtype !in Priority {
          words := words + [attributes[i].value];
        }
      }
      assert attributes[..|attributes|] == attributes;
      if words == [] {
        return "a shape";
      }
      var article := if StartsWithVowel(words[0]) then "an" else "a";
      phrase := article + " " + Join(words);
    }
  }
}
