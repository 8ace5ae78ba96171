# Z-DialogueSystem dialogue playback, modelled in Dafny

This project models the runtime part of a small visual-novel dialogue system
for Unity. It has three parts:

- **Character pack** (`character_pack.dfy`, module `CharacterPacks`). A
  character's portraits, keyed by emotion label, plus a default voice clip.
  The pack looks portraits up in a dictionary. It builds that dictionary on
  the first lookup, from its authored list of emotion/portrait pairs, and
  keeps it in a field. A lookup of an emotion that has no pair yields null,
  not an error.
- **Dialogue scene** (`simple_dialogue_scene.dfy`, module `DialogueScenes`).
  A read-only sequence of dialogue lines, each giving:
  - the speaker's character pack;
  - the emotion;
  - the side of the screen;
  - whether the speaker disappears after the line;
  - an optional voice clip;
  - the text.

  Lines are read by index; an index outside the scene is a hard failure.
- **Dialogue executor** (`dialogue_executor.dfy`, module `DialogueExecution`).
  The playback state machine. It holds:
  - a cursor into the active scene, and the active scene itself (null between
    scenes);
  - two image slots, left and right;
  - the dialogue text box.

  Starting a scene presents line 0. Each press of the advance input moves the
  cursor on by one. The executor then presents the new line, or ends the
  scene once the cursor passes the last line. Presenting a line works like
  this:
  - The speaking slot (the line's side) gets the speaker's portrait, tinted
    white.
  - The other slot keeps its portrait. It is cleared when the previous line
    disappears after itself and was on the other side; otherwise it is greyed.

Null object references become `Option` values (`wrappers.dfy`), or nullable
class types for the active scene. Sprites and audio clips are opaque
identifiers (`assets.dfy`). Slot colours are the three values `White`, `Grey`
and `Clear`.

The executor's fields, taken together as a value, are `ExecutorState`. Four
pure functions give the state each operation leaves behind: `LinePresented`,
`SceneStarted`, `SceneEnded` and `Advanced`. The class `DialogueExecutor`
updates its fields and its two `Image` objects in place. Each of its methods
is proved to produce exactly the state its function gives. The lemmas about
whole play-throughs are stated over those functions.

Three behaviours of the code are worth stating outright:
- A speaker with no portrait for the emotion still gets a white slot, with a
  null sprite; the slot is not made transparent.
- A slot that was cleared is greyed again as soon as the previous line does not
  trigger the disappear rule. See `ClearedSlotIsGreyedAgain`.
- A press of the advance input with no active scene is not ignored: the code
  dereferences the null scene.

## Model

| member | source | states |
|---|---|---|
| `CharacterPacks.AddAllSucceeds` | Assets/Scripts/CharacterPack.cs:39-42 | Adding the pairs one by one to a dictionary succeeds exactly when no two pairs share an emotion and no pair's emotion is already a key, because a dictionary add rejects a key that is already present |
| `CharacterPacks.AddAllContents` | Assets/Scripts/CharacterPack.cs:39-42 | A successful run of adds keeps the old entries, has exactly the old keys plus the pairs' emotions, and maps each pair's emotion to that pair's portrait |
| `CharacterPacks.DictionaryMatchesPairs` | Assets/Scripts/CharacterPack.cs:39-42 | Building the runtime dictionary fails iff the pairs hold a duplicate emotion; otherwise its key set is exactly the set of emotions, each mapped to its own pair's portrait |
| `CharacterPacks.ExpressionFor` | Assets/Scripts/CharacterPack.cs:54-58 | A lookup yields null when no pair has the emotion (a miss is not an error) and the pair's portrait when a pair has it |
| `CharacterPacks.CharacterPack.constructor` | Assets/Scripts/CharacterPack.cs:24-30 | A pack holds its authored emotion list, pairs and voice clip, and no runtime dictionary yet |
| `CharacterPacks.CharacterPack.Default` | Assets/Scripts/CharacterPack.cs:24 | A newly created pack's emotion list is the single entry "EMPTY" |
| `CharacterPacks.CharacterPack.InitializeDictionary` | Assets/Scripts/CharacterPack.cs:34-43 | Given distinct emotions, the loop of adds never fails and leaves in the field exactly the dictionary the pairs build, with the emotions as its keys; the build count goes up by one |
| `CharacterPacks.CharacterPack.GetExpression` | Assets/Scripts/CharacterPack.cs:49-59 | Returns the portrait paired with the emotion, or null on a miss. The dictionary is present afterwards and has been built exactly once; when it was already present the pack is left unchanged. The result depends only on the constant pairs, so repeated calls agree |
| `CharacterPacks.CharacterPack.GetVoiceByte` | Assets/Scripts/CharacterPack.cs:65-67 | Returns the stored voice clip; as a function it changes no state |
| `DialogueScenes.SimpleDialogueScene.constructor` | Assets/Scripts/SimpleDialogueScene.cs:31-37 | A scene holds its background music, background image and lines, none of which is ever reassigned |
| `DialogueScenes.SimpleDialogueScene.GetLine` | Assets/Scripts/SimpleDialogueScene.cs:41-45 | Defined only for `0 <= index < lines.Length`, and then returns exactly the line at that index |
| `DialogueScenes.SimpleDialogueScene.GetLength` | Assets/Scripts/SimpleDialogueScene.cs:49-51 | Returns the number of lines, which is never negative |
| `DialogueScenes.LinesFromAccessors` | Assets/Scripts/SimpleDialogueScene.cs:41-51 | The accessors agree on the index range: `GetLine` is defined at every index below `GetLength()`, and those reads give back the scene's lines in order |
| `DialogueExecution.LinePresented` | Assets/Scripts/DialogueExecutor.cs:61-88 | The speaking slot (left iff the line is on the left) gets the speaker's portrait and turns white, even when the portrait is null. The silent slot keeps its sprite. It is Clear iff this is not the first line, the previous line disappears after itself and it stood on the other side; otherwise it is Grey, whatever it was before. The text becomes the line's text; nothing else changes |
| `DialogueExecution.SceneStarted` | Assets/Scripts/DialogueExecutor.cs:43-57 | Starting a scene makes it the active scene with the cursor on line 0 (within range), enables input, shows the executor and fires one start event. Line 0 is presented: the speaker's slot is white with its portrait, and the other slot keeps the sprite the staging step left there and is greyed |
| `DialogueExecution.SceneEnded` | Assets/Scripts/DialogueExecutor.cs:92-98 | Ending a scene drops the active scene, disables input, hides the executor and fires one end event; the cursor, slots and text are left alone |
| `DialogueExecution.Advanced` | Assets/Scripts/DialogueExecutor.cs:104-116 | A callback outside the press phase changes nothing. A press moves the cursor on by exactly one. At the scene's length the scene ends; otherwise the scene stays active with the cursor in range, and the state is exactly the line at the new cursor presented (`LinePresented`): its speaker's portrait in a white slot, the silent slot keeping its sprite and cleared or greyed by the disappear rule, its text shown |
| `DialogueExecution.AdvancesStayActive` | Assets/Scripts/DialogueExecutor.cs:104-116 | Fewer presses than lines remaining keep the same scene active, move the cursor by the number of presses and fire no event |
| `DialogueExecution.AdvancesEndScene` | Assets/Scripts/DialogueExecutor.cs:104-116 | One press per remaining line ends the scene with the cursor at its length, input disabled and exactly one end event |
| `DialogueExecution.PlayThrough` | Assets/Scripts/DialogueExecutor.cs:43-116 | Starting a scene and then pressing advance exactly as many times as it has lines leaves no active scene, with one start event and one end event |
| `DialogueExecution.NoEarlyEnd` | Assets/Scripts/DialogueExecutor.cs:104-116 | After fewer presses than the scene has lines, the scene is still active on the line the presses reached, and no end event has fired |
| `DialogueExecution.ClearedSlotIsGreyedAgain` | Assets/Scripts/DialogueExecutor.cs:72-84 | Line A on the left disappears after itself, then B and C speak on the right. After B the left slot is Clear; after C (B does not disappear) it is Grey again, still with A's portrait |
| `DialogueExecution.DialogueExecutor.constructor` | Assets/Scripts/DialogueExecutor.cs:34-35 | An executor starts with the cursor at 0 and no scene; its two slots are assumed to be distinct images |
| `DialogueExecution.DialogueExecutor.StartScene` | Assets/Scripts/DialogueExecutor.cs:43-57 | Updates the fields and slots to exactly `SceneStarted` of the old state and the given staging, and keeps the class invariant. The first speaker's dictionary is built (once), left unchanged if it already was, and every other pack of the scene is unchanged |
| `DialogueExecution.DialogueExecutor.PresentLine` | Assets/Scripts/DialogueExecutor.cs:61-88 | Chooses the speaking and silent images by the line's side, assuming the two slots are distinct images. Updates fields and slots to exactly `LinePresented` of the old state. Afterwards the speaker's dictionary is the one its pairs build and has been built exactly once; if it was already built, the pack is unchanged |
| `DialogueExecution.DialogueExecutor.OnSceneEnd` | Assets/Scripts/DialogueExecutor.cs:92-98 | Updates the fields to exactly `SceneEnded` of the old state |
| `DialogueExecution.DialogueExecutor.HandleAdvance` | Assets/Scripts/DialogueExecutor.cs:104-116 | Updates fields and slots to exactly `Advanced` of the old state. It keeps the invariant that, while a scene is active, the cursor lies in `[0, GetLength())`. Only the newly presented speaker's pack may change (its dictionary built once); on the press that ends the scene no pack changes, so the ended scene's packs stay consistent |
| `DialogueExecution.PlayAndRestart` | Assets/Scripts/DialogueExecutor.cs:43-116 | A caller can start a scene, press advance once per line to end it, and start the same scene again: one more end event, two more start events, and the scene active on line 0 |

## Left out

- The scene's staging step `setUpExecutor`, called when a scene starts
  (Assets/Scripts/DialogueExecutor.cs:46). The scene class has no definition
  for it, so it is not part of this model. What it leaves in the two slots is
  an input (`Staging`) to `StartScene` and `SceneStarted`. Its effect on the
  background image and music is not modelled.
- Unity components are reduced to the state the executor changes:
  - `Image` becomes a class with a sprite and a tint;
  - the text component's text becomes the field `displayedText`;
  - `PlayerInput.enabled` and `gameObject.SetActive` become the booleans
    `inputEnabled` and `active`;
  - the two `UnityEvent`s become ghost counters of start and end events.
- Colours are floating-point RGBA in the source. Here they are the three tints
  the executor assigns. A slot tinted any other way before its first use
  cannot be represented.
- The warning logged when a pack has no pairs
  (Assets/Scripts/CharacterPack.cs:35-37) is logging only. With no pairs the
  dictionary is empty and every lookup yields null.
- `CharacterPacks.CharacterPack.GetExpression`: does not model duplicate
  emotions, a precondition instead. In the source the dictionary add throws
  on a duplicate. The field has already been set to the partly filled
  dictionary at that point, so later lookups would use it without
  rebuilding. Building fails iff a duplicate exists
  (`DictionaryMatchesPairs`), but that partial state is not modelled.
- `DialogueExecution.DialogueExecutor.HandleAdvance`: a press with no active
  scene is a precondition. The source increments the cursor and then
  dereferences the null scene. Input is disabled when a scene ends, so such a
  press is not delivered.
- `DialogueExecution.DialogueExecutor.StartScene`: an empty scene is a
  precondition, because reading line 0 is an out-of-range access. The Unity
  assertion in `getLine` only logs and does not stop execution.
- The two slot references are assumed non-null and distinct (the executor's
  constructor requires it). In the source they are inspector-assigned fields
  that may be unassigned or name the same `Image`. With one shared image,
  presenting a line would grey or clear the speaker it has just tinted white;
  that aliased case is not modelled.
- A line with no speaker pack is excluded by typing: `characterSpeaker` is a
  non-null reference. The source would fail with a null dereference when
  presenting such a line.
- Emotion strings are never null. The source's dictionary would reject a null
  key.
- The executor's methods require every character pack of the active scene to
  hold a consistent dictionary (`PacksValid`). This is the model's object
  invariant, not a demand of the source.
- Audio and the background are never played or shown. The line's `voiceClip`
  and the scene's background image and music are only stored; the pack's voice
  clip is stored and returned by `GetVoiceByte`. The executor in the source
  does not use any of them.
- The source has no typewriter reveal, voice-blip cadence or "linger on last
  line" flag, so none is modelled.
- The editor classes `CharacterPackEditor` and `SimpleDialogueSceneEditor` are
  inspector UI. They are not part of this model, and neither is the editor's
  ability to change a pack's or scene's authored fields. Here those fields are
  constants.
- The cursor is a 32-bit integer in the source. It never exceeds the scene's
  length, so wrap-around cannot occur and is not modelled.
