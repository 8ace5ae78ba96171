/**
 * A character pack: the portraits of one character, keyed by emotion, and the
 * character's default voice clip. Portraits are looked up through a dictionary
 * that the pack builds lazily, on the first lookup, from its authored list of
 * emotion/portrait pairs.
 */
module CharacterPacks {

  import opened Wrappers
  import opened Assets

  /** One authored entry: an emotion label and the portrait shown for it (possibly null). */
  datatype EmotionExpressionPair = EmotionExpressionPair(emotion: string, expression: Option<SpriteId>)

  /** The runtime dictionary from emotion label to portrait. */
  type Dictionary = map<string, Option<SpriteId>>

  /** The emotion list a newly created pack starts with. */
  const DefaultEmotionList: seq<string> := ["EMPTY"]

  /** The set of emotion labels that occur in `pairs`. */
  function Emotions(pairs: seq<EmotionExpressionPair>): set<string>
  {
    set i | 0 <= i < |pairs| :: pairs[i].emotion
  }

  /** No emotion label occurs twice in `pairs`. */
  predicate DistinctEmotions(pairs: seq<EmotionExpressionPair>)
  {
    forall i, j | 0 <= i < j < |pairs| :: pairs[i].emotion != pairs[j].emotion
  }

  /** Dictionary insertion, which rejects (`None`, an exception in the original) a key already present. */
  function Add(d: Dictionary, key: string, value: Option<SpriteId>): Option<Dictionary>
  {
    if key in d then None else Some(d[key := value])
  }

  /** Adds the pairs to `d` one after another, from the first; `None` once an insertion is rejected. */
  function AddAll(d: Dictionary, pairs: seq<EmotionExpressionPair>): Option<Dictionary>
    decreases |pairs|
  {
    if pairs == [] then Some(d)
    else
      match Add(d, pairs[0].emotion, pairs[0].expression)
      case None => None
      case Some(d') => AddAll(d', pairs[1..])
  }

  /** The dictionary built from the authored pairs, or `None` when building it fails. */
  function BuildDictionary(pairs: seq<EmotionExpressionPair>): Option<Dictionary>
  {
    AddAll(map[], pairs)
  }

  lemma EmotionsSplit(pairs: seq<EmotionExpressionPair>)
    requires pairs != []
    ensures Emotions(pairs) == {pairs[0].emotion} + Emotions(pairs[1..])
    ensures DistinctEmotions(pairs) <==> DistinctEmotions(pairs[1..]) && pairs[0].emotion !in Emotions(pairs[1..])
  {
  }

  /** Adding the pairs to `d` succeeds exactly when no insertion meets a key already there. */
  lemma {:induction false} AddAllSucceeds(d: Dictionary, pairs: seq<EmotionExpressionPair>)
    ensures AddAll(d, pairs).Some? <==> DistinctEmotions(pairs) && Emotions(pairs) !! d.Keys
    decreases |pairs|
  {
    if pairs != [] {
      EmotionsSplit(pairs);
      var p := pairs[0];
      if p.emotion !in d {
        AddAllSucceeds(d[p.emotion := p.expression], pairs[1..]);
      }
    }
  }

  /** What a successful `AddAll` holds: the old entries, and every pair's portrait under its emotion. */
  lemma {:induction false} AddAllContents(d: Dictionary, pairs: seq<EmotionExpressionPair>)
    requires DistinctEmotions(pairs) && Emotions(pairs) !! d.Keys
    ensures AddAll(d, pairs).Some?
    ensures AddAll(d, pairs).value.Keys == d.Keys + Emotions(pairs)
    ensures forall k | k in d :: AddAll(d, pairs).value[k] == d[k]
    ensures forall i | 0 <= i < |pairs| :: AddAll(d, pairs).value[pairs[i].emotion] == pairs[i].expression
    decreases |pairs|
  {
    if pairs != [] {
      EmotionsSplit(pairs);
      var p, rest := pairs[0], pairs[1..];
      var d' := d[p.emotion := p.expression];
      AddAllContents(d', rest);
      var r := AddAll(d', rest).value;
      assert AddAll(d, pairs) == Some(r);
      forall i | 0 <= i < |pairs| ensures r[pairs[i].emotion] == pairs[i].expression {
        if i > 0 { assert pairs[i] == rest[i - 1]; }
      }
    }
  }

  /**
   * Building the dictionary fails exactly when two pairs share an emotion;
   * otherwise its keys are the authored emotions, each mapped to its pair's portrait.
   */
  lemma DictionaryMatchesPairs(pairs: seq<EmotionExpressionPair>)
    ensures BuildDictionary(pairs).Some? <==> DistinctEmotions(pairs)
    ensures DistinctEmotions(pairs) ==>
      && BuildDictionary(pairs).value.Keys == Emotions(pairs)
      && forall i | 0 <= i < |pairs| :: BuildDictionary(pairs).value[pairs[i].emotion] == pairs[i].expression
  {
    AddAllSucceeds(map[], pairs);
    if DistinctEmotions(pairs) {
      AddAllContents(map[], pairs);
    }
  }

  /**
   * The portrait a lookup of `emotion` yields: the portrait of the pair with
   * that emotion, and null when no pair has it.
   */
  function ExpressionFor(pairs: seq<EmotionExpressionPair>, emotion: string): (sprite: Option<SpriteId>)
    requires DistinctEmotions(pairs)
    ensures emotion !in Emotions(pairs) ==> sprite == None
    ensures forall i | 0 <= i < |pairs| && pairs[i].emotion == emotion :: sprite == pairs[i].expression
  {
    DictionaryMatchesPairs(pairs);
    var dictionary := BuildDictionary(pairs).value;
    if emotion in dictionary then dictionary[emotion] else None
  }

  class CharacterPack {
    /** Authoring-time list of emotion labels; not read at playback. */
    const emotionList: seq<string>
    const expressions: seq<EmotionExpressionPair>
    const voiceByte: Option<AudioClipId>

    /** The lazily built lookup dictionary; `None` until the first lookup. */
    var runtimeExpressionDictionary: Option<Dictionary>
    /** How many times the dictionary has been built. */
    ghost var dictionaryBuilds: nat

    /** The cached dictionary, once present, is the one the pairs build, and it is built at most once. */
    ghost predicate Valid()
      reads this
    {
      && dictionaryBuilds <= 1
      && (runtimeExpressionDictionary.None? <==> dictionaryBuilds == 0)
      && (runtimeExpressionDictionary.Some? ==> runtimeExpressionDictionary == BuildDictionary(expressions))
    }

    /** A pack with the authored fields given and no dictionary yet. */
    constructor (emotionList: seq<string>, expressions: seq<EmotionExpressionPair>, voiceByte: Option<AudioClipId>)
      ensures Valid()
      ensures this.emotionList == emotionList && this.expressions == expressions && this.voiceByte == voiceByte
      ensures runtimeExpressionDictionary == None
    {
      this.emotionList := emotionList;
      this.expressions := expressions;
      this.voiceByte := voiceByte;
      runtimeExpressionDictionary := None;
      dictionaryBuilds := 0;
    }

    /** A newly created pack: its emotion list is the single default entry. */
    constructor Default(expressions: seq<EmotionExpressionPair>, voiceByte: Option<AudioClipId>)
      ensures Valid()
      ensures emotionList == ["EMPTY"]
      ensures this.expressions == expressions && this.voiceByte == voiceByte
      ensures runtimeExpressionDictionary == None
    {
      emotionList := DefaultEmotionList;
      this.expressions := expressions;
      this.voiceByte := voiceByte;
      runtimeExpressionDictionary := None;
      dictionaryBuilds := 0;
    }

    /**
     * Builds the dictionary by adding every pair in order. The source assigns
     * the fresh dictionary to the field before filling it, as here.
     */
    method InitializeDictionary()
      requires DistinctEmotions(expressions)
      modifies this
      ensures runtimeExpressionDictionary.Some?
      ensures runtimeExpressionDictionary == BuildDictionary(expressions)
      ensures runtimeExpressionDictionary.value.Keys == Emotions(expressions)
      ensures dictionaryBuilds == old(dictionaryBuilds) + 1
    {
      DictionaryMatchesPairs(expressions);
      runtimeExpressionDictionary := Some(map[]);
      for i := 0 to |expressions|
        invariant runtimeExpressionDictionary.Some?
        invariant AddAll(runtimeExpressionDictionary.value, expressions[i..]) == BuildDictionary(expressions)
        invariant dictionaryBuilds == old(dictionaryBuilds)
      {
        var ePair := expressions[i];
        assert expressions[i..][1..] == expressions[i + 1..];
        runtimeExpressionDictionary := Some(Add(runtimeExpressionDictionary.value, ePair.emotion, ePair.expression).value);
      }
      assert expressions[|expressions|..] == [];
      dictionaryBuilds := dictionaryBuilds + 1;
    }

    /**
     * The portrait for `emotion`, or null when no pair has that emotion.
     * Builds the dictionary on the first call only.
     */
    method GetExpression(emotion: string) returns (sprite: Option<SpriteId>)
      requires Valid() && DistinctEmotions(expressions)
      modifies this
      ensures Valid() && runtimeExpressionDictionary.Some? && dictionaryBuilds == 1
      ensures old(runtimeExpressionDictionary).Some? ==> unchanged(this)
      ensures sprite == ExpressionFor(expressions, emotion)
    {
      if runtimeExpressionDictionary.None? {
        InitializeDictionary();
      }
      if emotion in runtimeExpressionDictionary.value {
        return runtimeExpressionDictionary.value[emotion];
      }
      return None;
    }

    /** The character's default voice clip; reading it changes nothing. */
    function GetVoiceByte(): (clip: Option<AudioClipId>)
      ensures clip == voiceByte
    {
      voiceByte
    }
  }

}
