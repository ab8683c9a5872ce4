/**
 * The value field of the resource properties form: its suggestions and its
 * validation against the vocabulary of tag names and values.
 */
module PropertyValueField {
  import opened Common
  import opened Seqs
  import opened Strings
  import opened JsObjects

  /** A vocabulary tag: whether only its listed values are allowed, and the values (possibly absent). */
  datatype Tag = Tag(strict: bool, values: Option<seq<string>>)

  /** The vocabulary: tags by name. */
  datatype Vocabulary = Vocabulary(tags: map<string, Tag>)

  /**
   * What `tag && tag.values` reads from the vocabulary: an array of values, or,
   * for the name `constructor` when it is not an own tag, the function
   * `Object.values` (the tag read gives the inherited `Object`).
   */
  datatype TagValues = ValuesArray(values: seq<string>) | ObjectValuesFunction

  /** The result of a call: its value, or a thrown `TypeError`. */
  datatype Evaluated<T> = Returns(result: T) | ThrowsTypeError

  /**
   * `getTagValues`: the values of an own tag, or none when the tag has no
   * values. A name that is not an own tag reads `Object.prototype`: only
   * `constructor` has a `values` member there.
   */
  function GetTagValues(tagName: string, vocabulary: Vocabulary): (read: TagValues)
    ensures tagName in vocabulary.tags ==>
      read == ValuesArray(if vocabulary.tags[tagName].values.Some? then vocabulary.tags[tagName].values.value else [])
    ensures tagName !in vocabulary.tags ==> (read.ObjectValuesFunction? <==> tagName == "constructor")
    ensures tagName !in vocabulary.tags && tagName != "constructor" ==> read == ValuesArray([])
  {
    if tagName in vocabulary.tags then
      var tag := vocabulary.tags[tagName];
      if tag.values.Some? then ValuesArray(tag.values.value) else ValuesArray([])
    else if tagName == "constructor" then
      ObjectValuesFunction
    else
      ValuesArray([])
  }

  /** `isStrictTag`: a known tag that is marked strict; no inherited member has `strict`. */
  function IsStrictTag(tagName: string, vocabulary: Vocabulary): (strict: bool)
    ensures strict <==> tagName in vocabulary.tags && vocabulary.tags[tagName].strict
  {
    if tagName in vocabulary.tags then vocabulary.tags[tagName].strict else false
  }

  /** A vocabulary value is suggested when it contains what was typed and is not equal to it. */
  predicate Suggests(value: string, v: string)
  {
    Contains(v, value) && v != value
  }

  /**
   * `getSuggestions`: the tag's values that extend what was typed, in
   * vocabulary order; `filter` on the function `Object.values` throws.
   */
  function GetSuggestions(value: string, tagName: string, vocabulary: Vocabulary): (suggestions: Evaluated<seq<string>>)
    ensures suggestions.ThrowsTypeError? <==> GetTagValues(tagName, vocabulary).ObjectValuesFunction?
    ensures suggestions.Returns? ==>
      forall i :: 0 <= i < |suggestions.result| ==> Contains(suggestions.result[i], value) && suggestions.result[i] != value
  {
    match GetTagValues(tagName, vocabulary)
    case ObjectValuesFunction => ThrowsTypeError
    case ValuesArray(values) => Returns(Filter(values, v => Suggests(value, v)))
  }

  /**
   * The suggestions are exactly the tag values that extend the typed text,
   * in the vocabulary's order and as often as they occur there.
   */
  lemma SuggestionsExact(value: string, tagName: string, vocabulary: Vocabulary, v: string)
    ensures GetTagValues(tagName, vocabulary).ValuesArray? ==>
      var values := GetTagValues(tagName, vocabulary).values;
      var suggestions := GetSuggestions(value, tagName, vocabulary).result;
      && IsSubsequence(suggestions, values)
      && (v in suggestions <==> v in values && Contains(v, value) && v != value)
      && multiset(suggestions)[v] == if Contains(v, value) && v != value then multiset(values)[v] else 0
  {
    if GetTagValues(tagName, vocabulary).ValuesArray? {
      var values := GetTagValues(tagName, vocabulary).values;
      var p := (w: string) => Suggests(value, w);
      FilterIsSubsequence(values, p);
      FilterMembership(values, p, v);
      FilterMultiset(values, p, v);
    }
  }

  /** `values[i]` is the value `find(v => v.includes(value))` returns: the first that contains `value`. */
  predicate FirstContaining(values: seq<string>, value: string, i: int)
  {
    0 <= i < |values| && Contains(values[i], value) && forall j :: 0 <= j < i ==> !Contains(values[j], value)
  }

  /** `find` returns the first containing value, and there is only one first. */
  lemma FindFirstContaining(values: seq<string>, value: string)
    ensures var found := FindFirst(values, v => Contains(v, value));
      && (found.Some? <==> exists i :: FirstContaining(values, value, i))
      && forall i :: FirstContaining(values, value, i) ==> found == Some(values[i])
  {
    var found := FindFirst(values, v => Contains(v, value));
    forall i | FirstContaining(values, value, i) ensures found == Some(values[i]) {
      var k :| 0 <= k < |values| && values[k] == found.value && Contains(values[k], value)
        && forall j :: 0 <= j < k ==> !Contains(values[j], value);
      assert !(i < k) && !(k < i);
    }
    if found.Some? {
      var k :| 0 <= k < |values| && values[k] == found.value && Contains(values[k], value)
        && forall j :: 0 <= j < k ==> !Contains(values[j], value);
      assert FirstContaining(values, value, k);
    }
  }

  /**
   * `matchTagValues`: no error when the first tag value containing the typed
   * text is truthy (non-empty), else the message; `find` on the function
   * `Object.values` throws.
   */
  function MatchTagValues(tagName: string, vocabulary: Vocabulary, value: string): (err: Evaluated<Option<string>>)
    ensures err.ThrowsTypeError? <==> GetTagValues(tagName, vocabulary).ObjectValuesFunction?
    ensures err.Returns? && err.result.Some? ==> err.result.value == "Incorrect value"
    ensures GetTagValues(tagName, vocabulary).ValuesArray? ==>
      var values := GetTagValues(tagName, vocabulary).values;
      (err == Returns(None) <==> exists i :: FirstContaining(values, value, i) && values[i] != "")
  {
    match GetTagValues(tagName, vocabulary)
    case ObjectValuesFunction => ThrowsTypeError
    case ValuesArray(values) =>
      var found := FindFirst(values, v => Contains(v, value));
      FindFirstContaining(values, value);
      if found.Some? && found.value != "" then Returns(None) else Returns(Some("Incorrect value"))
  }

  /**
   * For typed text that is not empty, the value is accepted exactly when some
   * value of the tag contains it.
   */
  lemma MatchTagValuesAccepts(tagName: string, vocabulary: Vocabulary, value: string)
    requires value != ""
    ensures GetTagValues(tagName, vocabulary).ValuesArray? ==>
      var values := GetTagValues(tagName, vocabulary).values;
      MatchTagValues(tagName, vocabulary, value) == Returns(None) <==>
        exists i :: 0 <= i < |values| && Contains(values[i], value)
  {
    if GetTagValues(tagName, vocabulary).ValuesArray? {
      var values := GetTagValues(tagName, vocabulary).values;
      FindFirstContaining(values, value);
      if exists i :: 0 <= i < |values| && Contains(values[i], value) {
        var found := FindFirst(values, v => Contains(v, value));
        var k :| 0 <= k < |values| && values[k] == found.value && Contains(values[k], value)
          && forall j :: 0 <= j < k ==> !Contains(values[j], value);
        assert FirstContaining(values, value, k);
        ContainsLength(values[k], value);
      }
    }
  }

  /** The field rejects the typed text when the tag lists no values at all. */
  lemma MatchTagValuesNoValues(tagName: string, vocabulary: Vocabulary, value: string)
    requires GetTagValues(tagName, vocabulary) == ValuesArray([])
    ensures MatchTagValues(tagName, vocabulary, value) == Returns(Some("Incorrect value"))
  {
  }

  /**
   * Empty typed text is contained in every value, so `find` returns the first
   * value: the text is accepted exactly when that value is not empty.
   */
  lemma MatchTagValuesEmptyInput(vocabulary: Vocabulary, tagName: string)
    requires GetTagValues(tagName, vocabulary).ValuesArray? && GetTagValues(tagName, vocabulary).values != []
    ensures var values := GetTagValues(tagName, vocabulary).values;
      MatchTagValues(tagName, vocabulary, "") == Returns(None) <==> values[0] != ""
  {
    var values := GetTagValues(tagName, vocabulary).values;
    assert Contains(values[0], "");
    assert FirstContaining(values, "", 0);
  }

  /**
   * A tag name inherited from `Object.prototype`: never strict; `constructor`
   * makes both suggestions and matching throw, every other name reads as a
   * tag with no values.
   */
  lemma InheritedTagNames(vocabulary: Vocabulary, tagName: string, value: string)
    requires tagName !in vocabulary.tags && tagName in PrototypeNames
    ensures !IsStrictTag(tagName, vocabulary)
    ensures tagName == "constructor" ==>
      GetSuggestions(value, tagName, vocabulary) == ThrowsTypeError && MatchTagValues(tagName, vocabulary, value) == ThrowsTypeError
    ensures tagName != "constructor" ==>
      GetSuggestions(value, tagName, vocabulary) == Returns([])
      && MatchTagValues(tagName, vocabulary, value) == Returns(Some("Incorrect value"))
  {
    if tagName != "constructor" {
      assert GetTagValues(tagName, vocabulary) == ValuesArray([]);
    }
  }

  /** The validators of the field. */
  datatype Validator = Require | MatchTagValuesOf(tagName: string)

  /** `getValidation`: `require`, then the vocabulary match for a strict tag. */
  function GetValidation(propertyKey: string, vocabulary: Vocabulary): (validators: seq<Validator>)
    ensures |validators| >= 1 && validators[0] == Require
    ensures MatchTagValuesOf(propertyKey) in validators <==> IsStrictTag(propertyKey, vocabulary)
    ensures forall v :: v in validators ==> v == Require || v == MatchTagValuesOf(propertyKey)
  {
    if IsStrictTag(propertyKey, vocabulary) then [Require, MatchTagValuesOf(propertyKey)] else [Require]
  }
}
