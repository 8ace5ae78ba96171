/**
 * The dialogue executor: plays a scene one line at a time. It keeps a cursor
 * into the active scene and two character slots (left and right), and on each
 * press of the advance input either presents the next line or ends the scene.
 *
 * The executor's fields are collected in the value `ExecutorState`; the pure
 * functions `LinePresented`, `SceneStarted`, `SceneEnded` and `Advanced` give
 * the state each operation produces, and the class `DialogueExecutor` below is
 * proved to produce exactly those states.
 */
module DialogueExecution {

  import opened Wrappers
  import opened Assets
  import opened CharacterPacks
  import opened DialogueScenes

  /** The tint of a character slot: speaking, silent, or gone. */
  datatype SlotColor = White | Grey | Clear

  /** What a character slot shows. */
  datatype SlotState = SlotState(sprite: Option<SpriteId>, color: SlotColor)

  /**
   * What the scene's staging step leaves in the two slots when a scene starts.
   * That step is not part of this model, so its outcome is an input.
   */
  datatype Staging = Staging(left: SlotState, right: SlotState)
  {
    function Slot(leftSide: bool): SlotState
    {
      Pick(leftSide, left, right)
    }
  }

  /** The left slot when `leftSide`, the right slot otherwise. */
  function Pick(leftSide: bool, left: SlotState, right: SlotState): SlotState
  {
    if leftSide then left else right
  }

  /** The phase of an input action when its callback fires. */
  datatype InputActionPhase = Disabled | Waiting | Started | Performed | Canceled

  /** The argument of an input callback. */
  datatype CallbackContext = CallbackContext(phase: InputActionPhase)
  {
    /** The press has just begun: the callback fires once per press in this phase. */
    predicate Started() { phase.Started? }
  }

  /** A press of the advance input. */
  const Press := CallbackContext(InputActionPhase.Started)

  /**
   * Everything the executor holds: the cursor, the active scene (null between
   * scenes), the two slots, the displayed text, whether input is enabled and
   * the executor shown, and how many start and end events have fired.
   */
  datatype ExecutorState = ExecutorState(
    curDialogueLine: int,
    curScene: SimpleDialogueScene?,
    left: SlotState,
    right: SlotState,
    displayedText: string,
    inputEnabled: bool,
    active: bool,
    startEvents: nat,
    endEvents: nat)
  {
    function Slot(leftSide: bool): SlotState
    {
      Pick(leftSide, left, right)
    }
  }

  /** Every line's speaker can build its portrait dictionary (no emotion is listed twice). */
  predicate SpeakersReady(scene: SimpleDialogueScene)
  {
    forall i | 0 <= i < |scene.lines| :: DistinctEmotions(scene.lines[i].characterSpeaker.expressions)
  }

  /** A scene is playing and the cursor is on one of its lines. */
  predicate Active(s: ExecutorState)
  {
    s.curScene != null && 0 <= s.curDialogueLine < s.curScene.GetLength()
  }

  /** The previous line can be read when the cursor is past the first line. */
  predicate PresentableAt(s: ExecutorState)
  {
    s.curDialogueLine > 0 ==> s.curScene != null && s.curDialogueLine - 1 < s.curScene.GetLength()
  }

  /**
   * Presenting `line` clears the silent slot: this is not the first line, and the
   * previous line's speaker disappears after it and stood on the other side.
   */
  predicate SilentSlotVanishes(s: ExecutorState, line: DialogueLine)
    requires PresentableAt(s)
  {
    s.curDialogueLine > 0 &&
    var prevLine := s.curScene.GetLine(s.curDialogueLine - 1);
    prevLine.disappearAfter && prevLine.leftSide != line.leftSide
  }

  /** The portrait `line` shows for its speaker: null when the speaker has none for the emotion. */
  function Portrait(line: DialogueLine): Option<SpriteId>
    requires DistinctEmotions(line.characterSpeaker.expressions)
  {
    ExpressionFor(line.characterSpeaker.expressions, line.emotion)
  }

  /**
   * The state after presenting `line`. The speaking slot shows the speaker's
   * portrait in white, even when that portrait is null; the silent slot keeps
   * its portrait and is cleared when the previous speaker vanishes and greyed
   * otherwise, whatever its colour was.
   */
  function LinePresented(s: ExecutorState, line: DialogueLine): (r: ExecutorState)
    requires PresentableAt(s)
    requires DistinctEmotions(line.characterSpeaker.expressions)
    ensures r.Slot(line.leftSide) == SlotState(Portrait(line), White)
    ensures r.Slot(!line.leftSide).sprite == s.Slot(!line.leftSide).sprite
    ensures r.Slot(!line.leftSide).color == Clear <==> SilentSlotVanishes(s, line)
    ensures r.Slot(!line.leftSide).color != White
    ensures r.displayedText == line.dialogueLine
    ensures r == s.(left := r.left, right := r.right, displayedText := r.displayedText)
  {
    var speaking := SlotState(Portrait(line), White);
    var silentColor := if SilentSlotVanishes(s, line) then Clear else Grey;
    if line.leftSide then
      s.(left := speaking, right := s.right.(color := silentColor), displayedText := line.dialogueLine)
    else
      s.(right := speaking, left := s.left.(color := silentColor), displayedText := line.dialogueLine)
  }

  /**
   * The state after starting `scene`, with the slots as `staging` left them:
   * its first line is presented, input is enabled, the executor is shown and
   * one start event has fired.
   */
  function SceneStarted(s: ExecutorState, scene: SimpleDialogueScene, staging: Staging): (r: ExecutorState)
    requires scene.GetLength() >= 1
    requires DistinctEmotions(scene.GetLine(0).characterSpeaker.expressions)
    ensures Active(r) && r.curScene == scene && r.curDialogueLine == 0
    ensures r.inputEnabled && r.active
    ensures r.startEvents == s.startEvents + 1 && r.endEvents == s.endEvents
    ensures r.Slot(scene.lines[0].leftSide) == SlotState(Portrait(scene.lines[0]), White)
    ensures r.Slot(!scene.lines[0].leftSide) == staging.Slot(!scene.lines[0].leftSide).(color := Grey)
    ensures r.displayedText == scene.lines[0].dialogueLine
  {
    var staged := s.(curScene := scene, left := staging.left, right := staging.right,
                     curDialogueLine := 0, inputEnabled := true, active := true);
    var presented := LinePresented(staged, scene.GetLine(0));
    presented.(startEvents := presented.startEvents + 1)
  }

  /**
   * The state after the scene ends: no scene, input disabled, executor hidden,
   * one more end event; the cursor and the slots are left as they were.
   */
  function SceneEnded(s: ExecutorState): (r: ExecutorState)
    ensures r.curScene == null && !r.inputEnabled && !r.active
    ensures r.endEvents == s.endEvents + 1 && r.startEvents == s.startEvents
    ensures r.curDialogueLine == s.curDialogueLine && r.left == s.left && r.right == s.right
    ensures r.displayedText == s.displayedText
  {
    s.(curScene := null, inputEnabled := false, active := false, endEvents := s.endEvents + 1)
  }

  /** The next line can be presented: its speaker can build its dictionary. */
  predicate NextLineReady(s: ExecutorState)
    requires Active(s)
  {
    s.curDialogueLine + 1 < s.curScene.GetLength() ==>
      DistinctEmotions(s.curScene.GetLine(s.curDialogueLine + 1).characterSpeaker.expressions)
  }

  /**
   * The state after an advance callback. Outside the press phase nothing
   * changes. A press moves the cursor on by exactly one; past the last line the
   * scene ends, otherwise the new line is presented and the scene stays active.
   */
  function Advanced(s: ExecutorState, context: CallbackContext): (r: ExecutorState)
    requires context.Started() ==> Active(s) && NextLineReady(s)
    ensures !context.Started() ==> r == s
    ensures context.Started() ==> r.curDialogueLine == s.curDialogueLine + 1 && r.startEvents == s.startEvents
    ensures context.Started() && r.curDialogueLine == s.curScene.GetLength() ==>
      r == SceneEnded(s.(curDialogueLine := r.curDialogueLine))
    ensures context.Started() && r.curDialogueLine < s.curScene.GetLength() ==>
      && Active(r) && r.curScene == s.curScene && r.endEvents == s.endEvents
      && r.inputEnabled == s.inputEnabled && r.active == s.active
      && r.displayedText == s.curScene.lines[r.curDialogueLine].dialogueLine
      && r.Slot(s.curScene.lines[r.curDialogueLine].leftSide).color == White
    ensures context.Started() && r.curDialogueLine < s.curScene.GetLength() ==>
      r == LinePresented(s.(curDialogueLine := s.curDialogueLine + 1), s.curScene.GetLine(s.curDialogueLine + 1))
  {
    if context.Started() then
      var moved := s.(curDialogueLine := s.curDialogueLine + 1);
      if moved.curDialogueLine == moved.curScene.GetLength() then SceneEnded(moved)
      else LinePresented(moved, moved.curScene.GetLine(moved.curDialogueLine))
    else
      s
  }

  /** The state after `n` presses of the advance input, starting on an active scene. */
  function Advances(s: ExecutorState, n: nat): ExecutorState
    requires Active(s) && SpeakersReady(s.curScene)
    requires n <= s.curScene.GetLength() - s.curDialogueLine
    decreases n
  {
    if n == 0 then s
    else
      var r := Advanced(s, Press);
      if n == 1 then r else Advances(r, n - 1)
  }

  /** Fewer presses than lines remaining keep the scene active, with the cursor `n` lines on. */
  lemma {:induction false} AdvancesStayActive(s: ExecutorState, n: nat)
    requires Active(s) && SpeakersReady(s.curScene)
    requires n < s.curScene.GetLength() - s.curDialogueLine
    ensures Active(Advances(s, n)) && Advances(s, n).curScene == s.curScene
    ensures Advances(s, n).curDialogueLine == s.curDialogueLine + n
    ensures Advances(s, n).startEvents == s.startEvents && Advances(s, n).endEvents == s.endEvents
    decreases n
  {
    if n > 1 {
      AdvancesStayActive(Advanced(s, Press), n - 1);
    }
  }

  /** Pressing once for every remaining line ends the scene with exactly one end event. */
  lemma {:induction false} AdvancesEndScene(s: ExecutorState)
    requires Active(s) && SpeakersReady(s.curScene)
    ensures var r := Advances(s, s.curScene.GetLength() - s.curDialogueLine);
      && r.curScene == null && !r.inputEnabled && !r.active
      && r.curDialogueLine == s.curScene.GetLength()
      && r.startEvents == s.startEvents && r.endEvents == s.endEvents + 1
    decreases s.curScene.GetLength() - s.curDialogueLine
  {
    var n := s.curScene.GetLength() - s.curDialogueLine;
    if n > 1 {
      AdvancesEndScene(Advanced(s, Press));
    }
  }

  /**
   * Starting a scene and pressing advance as many times as it has lines plays
   * it to the end: one start event, one end event, and no scene left.
   */
  lemma PlayThrough(s: ExecutorState, scene: SimpleDialogueScene, staging: Staging)
    requires scene.GetLength() >= 1 && SpeakersReady(scene)
    ensures var r := Advances(SceneStarted(s, scene, staging), scene.GetLength());
      && r.curScene == null && !r.inputEnabled && !r.active
      && r.startEvents == s.startEvents + 1 && r.endEvents == s.endEvents + 1
  {
    AdvancesEndScene(SceneStarted(s, scene, staging));
  }

  /**
   * A scene is still playing after fewer presses than it has lines: the end
   * event fires on the last press and not before.
   */
  lemma NoEarlyEnd(s: ExecutorState, scene: SimpleDialogueScene, staging: Staging, n: nat)
    requires scene.GetLength() >= 1 && SpeakersReady(scene)
    requires n < scene.GetLength()
    ensures var r := Advances(SceneStarted(s, scene, staging), n);
      && r.curScene == scene && r.curDialogueLine == n && r.endEvents == s.endEvents
  {
    AdvancesStayActive(SceneStarted(s, scene, staging), n);
  }

  /**
   * The disappear rule over three lines: `a` on the left disappears after it,
   * `b` and `c` speak on the right. Presenting `b` clears the left slot;
   * presenting `c` greys it again, with `a`'s portrait still in it, because
   * `b` does not disappear: a cleared slot is not kept clear.
   */
  lemma ClearedSlotIsGreyedAgain(s: ExecutorState, scene: SimpleDialogueScene, staging: Staging)
    requires |scene.lines| == 3 && SpeakersReady(scene)
    requires scene.lines[0].leftSide && scene.lines[0].disappearAfter
    requires !scene.lines[1].leftSide && !scene.lines[1].disappearAfter
    requires !scene.lines[2].leftSide
    ensures var afterB := Advances(SceneStarted(s, scene, staging), 1);
      afterB.left == SlotState(Portrait(scene.lines[0]), Clear)
    ensures var afterC := Advances(SceneStarted(s, scene, staging), 2);
      afterC.left == SlotState(Portrait(scene.lines[0]), Grey)
  {
  }

  /** An image component: the sprite it draws and its tint. */
  class Image {
    var sprite: Option<SpriteId>
    var color: SlotColor

    constructor (sprite: Option<SpriteId>, color: SlotColor)
      ensures this.sprite == sprite && this.color == color
    {
      this.sprite := sprite;
      this.color := color;
    }
  }

  /** The character packs of a scene all hold a consistent (or not yet built) dictionary. */
  ghost predicate PacksValid(scene: SimpleDialogueScene)
    reads scene.Speakers()
  {
    forall p | p in scene.Speakers() :: p.Valid()
  }

  class DialogueExecutor {
    const leftCharacterSlot: Image
    const rightCharacterSlot: Image

    var curDialogueLine: int
    var curScene: SimpleDialogueScene?
    /** The text of the dialogue box. */
    var displayedText: string
    /** Whether the player's input reaches the executor. */
    var inputEnabled: bool
    /** Whether the executor's game object is shown. */
    var active: bool
    /** How many times the scene-start and scene-end events have fired. */
    ghost var startEvents: nat
    ghost var endEvents: nat

    /** The character packs the executor may touch: those of the active scene. */
    ghost function ScenePacks(): set<CharacterPack>
      reads this
    {
      if curScene == null then {} else curScene.Speakers()
    }

    /**
     * The two slots are different images, and while a scene plays the cursor
     * is on one of its lines and its packs' dictionaries are consistent.
     */
    ghost predicate Valid()
      reads this, ScenePacks()
    {
      && leftCharacterSlot != rightCharacterSlot
      && (curScene != null ==> 0 <= curDialogueLine < curScene.GetLength() && PacksValid(curScene))
    }

    /** The executor's fields as a value. */
    ghost function State(): ExecutorState
      reads this, leftCharacterSlot, rightCharacterSlot
    {
      ExecutorState(
        curDialogueLine, curScene,
        SlotState(leftCharacterSlot.sprite, leftCharacterSlot.color),
        SlotState(rightCharacterSlot.sprite, rightCharacterSlot.color),
        displayedText, inputEnabled, active, startEvents, endEvents)
    }

    /** An idle executor over two distinct slots: no scene and the cursor at 0. */
    constructor (leftCharacterSlot: Image, rightCharacterSlot: Image)
      requires leftCharacterSlot != rightCharacterSlot
      ensures Valid()
      ensures this.leftCharacterSlot == leftCharacterSlot && this.rightCharacterSlot == rightCharacterSlot
      ensures curScene == null && curDialogueLine == 0
      ensures startEvents == 0 && endEvents == 0
    {
      this.leftCharacterSlot := leftCharacterSlot;
      this.rightCharacterSlot := rightCharacterSlot;
      curDialogueLine := 0;
      curScene := null;
      displayedText := "";
      inputEnabled := false;
      active := false;
      startEvents := 0;
      endEvents := 0;
    }

    /**
     * Starts `scene` on its first line. The slots are first set to what the
     * scene's staging step leaves in them, given as `staging`. Only the first
     * speaker's pack is touched: its dictionary is built if it was not yet.
     */
    method StartScene(scene: SimpleDialogueScene, staging: Staging)
      requires Valid()
      requires scene.GetLength() >= 1
      requires DistinctEmotions(scene.GetLine(0).characterSpeaker.expressions)
      requires PacksValid(scene)
      modifies this, leftCharacterSlot, rightCharacterSlot, scene.Speakers()
      ensures Valid()
      ensures State() == SceneStarted(old(State()), scene, staging)
      ensures var speaker := scene.lines[0].characterSpeaker;
        && speaker.runtimeExpressionDictionary == BuildDictionary(speaker.expressions)
        && speaker.dictionaryBuilds == 1
        && (old(speaker.runtimeExpressionDictionary).Some? ==> unchanged(speaker))
      ensures forall p | p in scene.Speakers() && p != scene.lines[0].characterSpeaker :: unchanged(p)
    {
      curScene := scene;
      leftCharacterSlot.sprite, leftCharacterSlot.color := staging.left.sprite, staging.left.color;
      rightCharacterSlot.sprite, rightCharacterSlot.color := staging.right.sprite, staging.right.color;
      curDialogueLine := 0;

      inputEnabled := true;
      active := true;

      PresentLine(curScene.GetLine(curDialogueLine));

      startEvents := startEvents + 1;
    }

    /** Shows `line`: the speaking slot gets the speaker's portrait, the silent slot is greyed or cleared. */
    method PresentLine(line: DialogueLine)
      requires leftCharacterSlot != rightCharacterSlot
      requires PresentableAt(State())
      requires line.characterSpeaker.Valid() && DistinctEmotions(line.characterSpeaker.expressions)
      modifies this, leftCharacterSlot, rightCharacterSlot, line.characterSpeaker
      ensures line.characterSpeaker.Valid()
      ensures line.characterSpeaker.runtimeExpressionDictionary == BuildDictionary(line.characterSpeaker.expressions)
      ensures line.characterSpeaker.dictionaryBuilds == 1
      ensures old(line.characterSpeaker.runtimeExpressionDictionary).Some? ==> unchanged(line.characterSpeaker)
      ensures State() == LinePresented(old(State()), line)
    {
      var speakingCharacter := if line.leftSide then leftCharacterSlot else rightCharacterSlot;
      var silentCharacter := if line.leftSide then rightCharacterSlot else leftCharacterSlot;

      var portrait := line.characterSpeaker.GetExpression(line.emotion);
      speakingCharacter.sprite := portrait;

      speakingCharacter.color := White;

      if curDialogueLine > 0 {
        var prevLine := curScene.GetLine(curDialogueLine - 1);
        if prevLine.disappearAfter && prevLine.leftSide != line.leftSide {
          silentCharacter.color := Clear;
        } else {
          silentCharacter.color := Grey;
        }
      } else {
        silentCharacter.color := Grey;
      }

      displayedText := line.dialogueLine;
    }

    /** Leaves the scene: no scene, input disabled, executor hidden, one end event. */
    method OnSceneEnd()
      requires leftCharacterSlot != rightCharacterSlot
      modifies this
      ensures Valid()
      ensures State() == SceneEnded(old(State()))
    {
      curScene := null;
      inputEnabled := false;
      active := false;

      endEvents := endEvents + 1;
    }

    /**
     * Handles the advance input: on a press, moves to the next line or ends the
     * scene. Only the pack of a newly presented line's speaker is touched; on
     * the press that ends the scene no pack changes, so the packs stay consistent.
     */
    method HandleAdvance(context: CallbackContext)
      requires Valid()
      requires context.Started() ==> curScene != null && NextLineReady(State())
      modifies this, leftCharacterSlot, rightCharacterSlot, ScenePacks()
      ensures Valid()
      ensures State() == Advanced(old(State()), context)
      ensures old(curScene) != null ==> PacksValid(old(curScene))
      ensures context.Started() && curScene != null ==>
        var speaker := curScene.lines[curDialogueLine].characterSpeaker;
        && speaker.runtimeExpressionDictionary == BuildDictionary(speaker.expressions)
        && speaker.dictionaryBuilds == 1
        && (old(speaker.runtimeExpressionDictionary).Some? ==> unchanged(speaker))
      ensures forall p | p in old(ScenePacks()) ::
        unchanged(p) || (context.Started() && curScene != null && p == curScene.lines[curDialogueLine].characterSpeaker)
    {
      if context.Started() {
        curDialogueLine := curDialogueLine + 1;

        if curDialogueLine == curScene.GetLength() {
          OnSceneEnd();
        } else {
          PresentLine(curScene.GetLine(curDialogueLine));
        }
      }
    }
  }

  /**
   * A caller's view: play `scene` to its end with one press per line, then
   * start it again. The second start is possible because the scene's packs stay
   * consistent when it ends; the same holds for a pack shared between scenes.
   */
  method PlayAndRestart(executor: DialogueExecutor, scene: SimpleDialogueScene, staging: Staging)
    requires executor.Valid()
    requires scene.GetLength() >= 1 && SpeakersReady(scene) && PacksValid(scene)
    modifies executor, executor.leftCharacterSlot, executor.rightCharacterSlot, scene.Speakers()
    ensures executor.Valid() && executor.curScene == scene && executor.curDialogueLine == 0
    ensures executor.startEvents == old(executor.startEvents) + 2
    ensures executor.endEvents == old(executor.endEvents) + 1
  {
    executor.StartScene(scene, staging);
    var presses := 0;
    while presses < scene.GetLength()
      invariant 0 <= presses <= scene.GetLength()
      invariant executor.Valid() && PacksValid(scene)
      invariant presses < scene.GetLength() ==> executor.curScene == scene && executor.curDialogueLine == presses
      invariant presses == scene.GetLength() ==> executor.curScene == null
      invariant executor.startEvents == old(executor.startEvents) + 1
      invariant executor.endEvents == old(executor.endEvents) + if presses == scene.GetLength() then 1 else 0
    {
      executor.HandleAdvance(Press);
      presses := presses + 1;
    }
    executor.StartScene(scene, staging);
  }

}
