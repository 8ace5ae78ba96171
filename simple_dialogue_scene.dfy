/**
 * A dialogue scene: a fixed, read-only sequence of lines, addressed by index,
 * with the scene's background image and music.
 */
module DialogueScenes {

  import opened Wrappers
  import opened Assets
  import opened CharacterPacks

  /**
   * One authored line: who speaks (a character pack, shared between lines), with
   * which emotion, on which side of the screen, whether the speaker vanishes once
   * the other side speaks next, an optional voice clip, and the text.
   */
  datatype DialogueLine = DialogueLine(
    characterSpeaker: CharacterPack,
    emotion: string,
    leftSide: bool,
    disappearAfter: bool,
    voiceClip: Option<AudioClipId>,
    dialogueLine: string)

  class SimpleDialogueScene {
    const backgroundMusic: Option<AudioClipId>
    const backgroundImage: Option<SpriteId>
    const lines: seq<DialogueLine>

    constructor (backgroundMusic: Option<AudioClipId>, backgroundImage: Option<SpriteId>, lines: seq<DialogueLine>)
      ensures this.backgroundMusic == backgroundMusic && this.backgroundImage == backgroundImage
      ensures this.lines == lines
    {
      this.backgroundMusic := backgroundMusic;
      this.backgroundImage := backgroundImage;
      this.lines := lines;
    }

    /** The line at `index`; an index outside the scene is a hard failure in the original. */
    function GetLine(index: int): (line: DialogueLine)
      requires 0 <= index < |lines|
      ensures line == lines[index]
    {
      lines[index]
    }

    /** The number of lines in the scene. */
    function GetLength(): (length: int)
      ensures length >= 0 && length == |lines|
    {
      |lines|
    }

    /** The character packs that speak some line of the scene. */
    function Speakers(): set<CharacterPack>
    {
      set i | 0 <= i < |lines| :: lines[i].characterSpeaker
    }
  }

  /**
   * The two accessors agree: reading every index below `GetLength()` with
   * `GetLine` yields the scene's lines, in order.
   */
  lemma LinesFromAccessors(scene: SimpleDialogueScene)
    ensures scene.lines == seq(scene.GetLength(), i requires 0 <= i < scene.GetLength() => scene.GetLine(i))
  {
  }

}
