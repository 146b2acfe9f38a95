# Template English realizer, modelled in Dafny

This project models `TemplateEnglishRealizer` from ShapeWorld
(`shapeworld/realizers/template_english.py`). The realizer turns caption trees into
English sentences. It accepts exactly one caption shape: an existential whose body is a
spatial relation (`x-rel` or `y-rel`) between two entity descriptions. That shape becomes

    there are two shapes <subject> and <reference> . what is the spatial relationship from the first shape to the second shape ? the spatial relation is <direction> .

Every other caption becomes the empty string. On construction the realizer also loads a
vocabulary: one map from attribute predicate types to their value names and one from
relation predicate types to theirs, with numeric-looking names turned into integers.

Files and modules:

- `wrappers.dfy` (`Wrappers`): `Option`, which stands for Python's `None`.
- `captions.dfy` (`Captions`): the caption classes of `shapeworld.captions` as one sum type.
  `Existential`, `Relation`, `Entity` (an `EntityType` node), `Selector` and `Other` (any
  other caption class).
- `language_spec.dfy` (`LanguageSpec`, `LanguageSpecExamples`): which specification file is
  opened, value-name normalisation (`_parse_value`), and the two vocabulary maps.
- `template_english.dfy` (`TemplateEnglish`): the direction table, the noun-phrase builder,
  the sentence template, and the class `TemplateEnglishRealizer`. The class holds the two
  vocabulary maps as fields. Its loops (`realize`, `_entity_phrase`, `_load_language_spec`)
  are methods proved against the specification functions beside them.
- `template_english_properties.dfy` (`TemplateEnglishProperties`, `TemplateEnglishExamples`):
  lemmas about word order, the article, the sentence, and worked examples.

Modelling choices:

- `Selector(scope: EntityType)`: the source returns a selector's scope without checking that
  it is an `EntityType` (line 56). The model builds that assumption into the type.
- `Relation.value` is an `int`. `x-rel`/`y-rel` captions carry -1 or +1, but the code tests
  only for -1 (lines 61 and 63). So every other value, not just +1, gives `right` / `below`,
  and the model does the same.
- A decoded JSON object is an ordered sequence of `Entry(predtype, value names)`. A missing
  `attributes` or `relations` key is the empty sequence. A dictionary of value names mapped
  to `None` is modelled as the set of its keys.
- Predicate types are normalised as well as value names (line 97). So two entries whose
  names normalise to the same value (`"1"` and `"01"`) share one key, and the later entry
  wins (`BuildMapLastWins`).
- The vocabulary is built and stored but never consulted during realization, as in the source.

## Model

| member | source | states |
|---|---|---|
| `TemplateEnglish.TemplateEnglishRealizer.Realize` | shapeworld/realizers/template_english.py:16-24 | one string per caption, same length and order; `""` for a missing caption or one that is not realizable; otherwise exactly that caption's realization |
| `TemplateEnglish.Realized` | shapeworld/realizers/template_english.py:19-23 | the string for one list entry: `""` for a missing caption or one that is not realizable, otherwise exactly that caption's realization |
| `TemplateEnglish.RealizeCaption` | shapeworld/realizers/template_english.py:26-50 | there is a realization exactly when the caption is an existential whose body is an `x-rel`/`y-rel` relation and whose restrictor and reference are both an EntityType or a Selector; a realization starts with "there are two shapes " (so it is never empty) |
| `TemplateEnglishProperties.UnrealizableCaptions` | shapeworld/realizers/template_english.py:26-41 | each of these gives no realization: not an existential, a body that is not a relation, a predicate type other than `x-rel`/`y-rel`, or a restrictor or reference that is neither an EntityType nor a Selector |
| `TemplateEnglishProperties.RealizedSentence` | shapeworld/realizers/template_english.py:43-50 | a realizable caption renders as the fixed template filled with the subject phrase, the reference phrase and the direction word |
| `TemplateEnglish.Sentence` | shapeworld/realizers/template_english.py:46-50 | the template begins with the fixed opening words and is longer than them |
| `TemplateEnglish.EntityTypeFromCaption` | shapeworld/realizers/template_english.py:52-57 | defined exactly for an EntityType node (giving itself) and a Selector (giving its scope); nothing otherwise |
| `TemplateEnglish.RelationDirection` | shapeworld/realizers/template_english.py:59-64 | `x-rel` gives `left` for -1 and `right` for any other value; `y-rel` gives `above` for -1 and `below` otherwise; any other predicate type gives nothing |
| `TemplateEnglish.DirectionRoundTrip` | shapeworld/realizers/template_english.py:59-64 | the direction word determines the axis and whether the value was -1, and conversely |
| `TemplateEnglish.TemplateEnglishRealizer.EntityPhrase` | shapeworld/realizers/template_english.py:66-79 | the nested loops that collect the words, and the article choice, produce exactly `NounPhrase` |
| `TemplateEnglish.NounPhrase` | shapeworld/realizers/template_english.py:66-79 | the phrase `RealizeCaption` uses for each entity. It has no contract of its own: `EntityPhrase` proves the loops compute it, and `NounPhraseForm`, `WordsPermutation` and `FirstWord` state its form, its words and its article |
| `TemplateEnglish.RankOfPriority` | shapeworld/realizers/template_english.py:69-71 | an attribute matches the p-th priority entry (color, texture, shape) exactly when its rank is p |
| `TemplateEnglish.RankOfOther` | shapeworld/realizers/template_english.py:73-74 | an attribute falls in the final "all other attributes" pass exactly when its predicate type is none of color, texture, shape |
| `TemplateEnglish.GroupSnoc` | shapeworld/realizers/template_english.py:70-75 | each pass over the attributes appends one attribute's value exactly when the attribute belongs to that pass |
| `TemplateEnglishProperties.WordsAreGroups` | shapeworld/realizers/template_english.py:69-75 | the word list is all colour values, then textures, then shapes, then all other attributes, each group in the original order |
| `TemplateEnglishProperties.GroupsCoverValues` | shapeworld/realizers/template_english.py:69-75 | together the four groups contain every attribute value exactly once |
| `TemplateEnglishProperties.WordsPermutation` | shapeworld/realizers/template_english.py:66-75 | the words are a permutation of the attribute values, so there are exactly as many words as attributes |
| `TemplateEnglishProperties.FirstWord` | shapeworld/realizers/template_english.py:69-78 | the first word, which picks the article, is the value of the earliest attribute of the best rank: the first colour, else the first texture, else the first shape, else the first attribute |
| `TemplateEnglishProperties.NounPhraseForm` | shapeworld/realizers/template_english.py:76-79 | no attributes gives exactly "a shape"; otherwise the phrase is the article, one space, and the words joined by single spaces, with one word per attribute |
| `TemplateEnglish.Article` | shapeworld/realizers/template_english.py:78 | "an" exactly when the first word begins with one of a, e, i, o, u in either case; "a" otherwise, including for an empty word |
| `TemplateEnglish.StartsWithVowel` | shapeworld/realizers/template_english.py:81-82 | true exactly when the word is non-empty and its first character is one of aeiouAEIOU; an empty word is not vowel-initial |
| `TemplateEnglish.Join` | shapeworld/realizers/template_english.py:79 | `' '.join`: no words give the empty string; otherwise the result starts with the first word |
| `TemplateEnglishExamples.RedSquare` | shapeworld/realizers/template_english.py:66-79 | `[color=red, shape=square]` renders as "a red square", in either attribute order |
| `TemplateEnglishExamples.Orange` | shapeworld/realizers/template_english.py:78-82 | `[color=orange]` renders as "an orange" |
| `TemplateEnglishExamples.NoAttributes` | shapeworld/realizers/template_english.py:76-77 | an entity without attributes renders as "a shape" |
| `TemplateEnglishExamples.EndToEnd` | shapeworld/realizers/template_english.py:26-50 | a red square left of (value -1 on `x-rel`) a circle realizes with "a red square", "a circle" and "left" in the template |
| `TemplateEnglish.TemplateEnglishRealizer.constructor` | shapeworld/realizers/template_english.py:10-14 | a new realizer holds the attribute and relation maps built from the decoded document |
| `TemplateEnglish.TemplateEnglishRealizer.LoadLanguageSpec` | shapeworld/realizers/template_english.py:92-102 | the loops leave `attributes` equal to `AttributeMap` and `relations` equal to `RelationMap` of the document |
| `LanguageSpec.LanguageFile` | shapeworld/realizers/template_english.py:84-89 | the requested language (English when none is given) when its file exists; otherwise `english.json` if that exists; otherwise nothing (opening fails) |
| `LanguageSpec.ParseInt` | shapeworld/realizers/template_english.py:107-111 | an integer exactly for an integer literal: decimal digits, optionally after one `+` or `-`. The value is the digits' decimal value, negated after `-`. Anything else (`"1a"`, `"-"`, `""`) gives nothing |
| `LanguageSpec.LeadingZero` | shapeworld/realizers/template_english.py:109 | a leading zero changes nothing: `"0"` followed by digits parses like the digits alone |
| `LanguageSpec.ParseValue` | shapeworld/realizers/template_english.py:104-116 | an integer when the name parses as one; otherwise the name itself, unchanged |
| `LanguageSpec.ParseShowInt` | shapeworld/realizers/template_english.py:108-109 | every integer written in decimal normalises back to that integer |
| `LanguageSpec.ParseKeepsText` | shapeworld/realizers/template_english.py:107-116 | a name that is not an integer literal is kept unchanged as text (line 116; the float branch is left out) |
| `LanguageSpec.ValueSet` | shapeworld/realizers/template_english.py:96 | the value set holds the normalised form of every value name and nothing else |
| `LanguageSpec.BuildMap` | shapeworld/realizers/template_english.py:92-102 | the dictionary the loader's loop leaves after the entries in order, skipping the given predicate types. It has at most one key per entry; `BuildMapKeys` and `BuildMapLastWins` state its meaning |
| `LanguageSpec.AttributeMap` | shapeworld/realizers/template_english.py:92-97 | `self.attributes`: at most one key per entry, and never the keys `relation` or `shapes`, which line 94 skips |
| `LanguageSpec.RelationMap` | shapeworld/realizers/template_english.py:99-102 | `self.relations`: at most one key per entry; `RelationMapCoversAll` gives its keys exactly |
| `LanguageSpec.BuildMapKeys` | shapeworld/realizers/template_english.py:92-102 | a key is in a vocabulary map exactly when some entry that is not skipped normalises to it |
| `LanguageSpec.BuildMapLastWins` | shapeworld/realizers/template_english.py:92-102 | a key's entry holds the value set of the last entry that normalises to it |
| `LanguageSpec.AttributeMapCoversOthers` | shapeworld/realizers/template_english.py:93-97 | every attribute entry other than `relation` and `shapes` gets a key |
| `LanguageSpec.RelationMapCoversAll` | shapeworld/realizers/template_english.py:99-102 | every relation entry gets a key (no entry is skipped), and there are no other keys |
| `LanguageSpecExamples.SizeExample` | shapeworld/realizers/template_english.py:92-97 | attributes `relation`, `shapes` and `size` with names "1", "2" give only `size`, mapped to the integers {1, 2} |
| `LanguageSpecExamples.TrailingLetter` | shapeworld/realizers/template_english.py:107-116 | `"1a"` is not an integer and stays the text `"1a"` |
| `LanguageSpecExamples.BareSign` | shapeworld/realizers/template_english.py:107-116 | `"-"` is not an integer and stays text |
| `LanguageSpecExamples.LeadingZeros` | shapeworld/realizers/template_english.py:108-109 | `"007"` normalises to the integer 7 |
| `LanguageSpecExamples.PlusSign` | shapeworld/realizers/template_english.py:108-109 | `"+5"` normalises to the integer 5 |

## Left out

- Reading the specification file: path resolution, `open` and `json.load` (lines 84-90) are
  I/O. The constructor takes the decoded document. `LanguageFile` takes the set of existing
  file names as a parameter. A document that is not valid JSON is not modelled.
- The `float(value)` attempt of `_parse_value` (lines 112-115) is floating-point parsing. A
  name that only `float` accepts, such as `"0.5"`, stays text in the model.
- `ParseInt`: does not model all of Python's `int(str)`. Python also accepts surrounding
  whitespace, single underscores between digits and non-ASCII decimal digits; the model
  accepts only an optional `+`/`-` followed by ASCII digits.
- The `isinstance(value, (int, float))` branch of `_parse_value` (lines 105-106) is not
  reachable from the loader, because JSON object keys are always strings. `ParseValue` takes
  strings only.
- `StartsWithVowel`: lower-cases ASCII letters only. Python's `str.lower` also maps other
  letters, but no single character lower-cases to one of the five ASCII vowels except the
  ASCII capitals, so the result is the same.
- The caption classes and the `CaptionRealizer` base class are not part of this model. The
  captions are the sum type in `Captions`. What the base constructor does with `language` is
  not modelled; the language only chooses the file read (`LanguageFile`).
- A decoded document of the wrong shape is not modelled. `Spec` holds only well-shaped
  documents: objects of predicate types whose values are objects of value names. On a document
  such as `"attributes": null`, or one whose value list is a number, the source raises
  `AttributeError` at line 93 or 96.
- Attribute values are strings, because the source joins them with `' '.join`. A
  non-string value would make the Python code raise.
- `shapeworld/realizers/__init__.py` only re-exports names.
