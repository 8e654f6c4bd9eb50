/**
 * The mod's configuration (src/Config.cs) and its settings page
 * (src/McmSettings.cs). The two classes read each other (the settings page
 * is initialised from the configuration, the configuration copies the
 * settings page), so they share one module.
 */
module Settings {
  import opened Text

  /** The seven flags the configuration declares, in declaration order. */
  datatype Snapshot = Snapshot(
    showCultureStage: bool,
    showFaceGenStage: bool,
    showGenericStage: bool,
    disableIntroVideo: bool,
    promptForPlayerName: bool,
    promptForClanName: bool,
    openBannerEditor: bool)

  /** Column at which every line of the debug dump puts its `=`. */
  const DebugColumn: nat := 20

  /** The property names, in declaration order. */
  const DebugNames: seq<string> := ["ShowCultureStage", "ShowFaceGenStage", "ShowGenericStage",
    "DisableIntroVideo", "PromptForPlayerName", "PromptForClanName", "OpenBannerEditor"]

  /** The seven lines of the debug dump, as the source spells them, for the flags `v`. */
  function DebugLines(v: seq<bool>): seq<string>
    requires |v| == |DebugNames|
  {
    [DebugNames[0] + "    = " + BoolText(v[0]),
     DebugNames[1] + "    = " + BoolText(v[1]),
     DebugNames[2] + "    = " + BoolText(v[2]),
     DebugNames[3] + "   = " + BoolText(v[3]),
     DebugNames[4] + " = " + BoolText(v[4]),
     DebugNames[5] + "   = " + BoolText(v[5]),
     DebugNames[6] + "    = " + BoolText(v[6])]
  }

  /**
   * The static configuration. Config.cs declares and defaults the seven
   * flags of `Snapshot`. SubModule.cs and McmSettings.cs also read
   * `LandownerStart`, `VassalStart`, `KingStart` and `KingdomId`, which
   * Config.cs does not declare: they are kept here as plain fields, given by
   * whoever creates the configuration, and `CopyFrom` leaves them alone.
   */
  class Config {
    var showCultureStage: bool
    var showFaceGenStage: bool
    var showGenericStage: bool
    var disableIntroVideo: bool
    var promptForPlayerName: bool
    var promptForClanName: bool
    var openBannerEditor: bool

    var landownerStart: bool
    var vassalStart: bool
    var kingStart: bool
    var kingdomId: string

    /** The seven declared flags. */
    function Values(): Snapshot
      reads this
    {
      Snapshot(showCultureStage, showFaceGenStage, showGenericStage, disableIntroVideo,
               promptForPlayerName, promptForClanName, openBannerEditor)
    }

    /** The seven declared flags as a list, in declaration order. */
    function Flags(): (r: seq<bool>)
      reads this
      ensures |r| == |DebugNames|
    {
      [showCultureStage, showFaceGenStage, showGenericStage, disableIntroVideo,
       promptForPlayerName, promptForClanName, openBannerEditor]
    }

    /** The declared defaults: every stage skipped, the intro video disabled, no prompt, no banner editor. */
    constructor (landownerStart: bool, vassalStart: bool, kingStart: bool, kingdomId: string)
      ensures !showCultureStage && !showFaceGenStage && !showGenericStage
      ensures disableIntroVideo
      ensures !promptForPlayerName && !promptForClanName && !openBannerEditor
      ensures this.landownerStart == landownerStart && this.vassalStart == vassalStart
      ensures this.kingStart == kingStart && this.kingdomId == kingdomId
    {
      showCultureStage := false;
      showFaceGenStage := false;
      showGenericStage := false;
      disableIntroVideo := true;
      promptForPlayerName := false;
      promptForClanName := false;
      openBannerEditor := false;
      this.landownerStart := landownerStart;
      this.vassalStart := vassalStart;
      this.kingStart := kingStart;
      this.kingdomId := kingdomId;
    }

    /**
     * Copies the seven flags from the settings page. A second call with the
     * same settings finds them equal already and changes nothing.
     */
    method CopyFrom(settings: McmSettings)
      modifies this`showCultureStage, this`showFaceGenStage, this`showGenericStage,
               this`disableIntroVideo, this`promptForPlayerName, this`promptForClanName,
               this`openBannerEditor
      ensures Values() == settings.Values()
      ensures old(Values()) == settings.Values() ==> unchanged(this)
    {
      showCultureStage := settings.showCultureStage;
      showFaceGenStage := settings.showFaceGenStage;
      showGenericStage := settings.showGenericStage;
      disableIntroVideo := settings.disableIntroVideo;
      promptForPlayerName := settings.promptForPlayerName;
      promptForClanName := settings.promptForClanName;
      openBannerEditor := settings.openBannerEditor;
    }

    /** One `Name = value` line per flag, in declaration order, `=` aligned, no trailing newline. */
    function ToDebugString(): (r: string)
      reads this
      ensures |Split(r)| == |DebugNames|
      ensures forall i :: 0 <= i < |DebugNames| ==>
        |DebugNames[i]| <= DebugColumn && Split(r)[i] == Aligned(DebugNames[i], DebugColumn, Flags()[i])
      ensures |r| > 0 && r[|r| - 1] != '\n'
    {
      var lines := DebugLines(Flags());
      DebugLinesAligned(Flags());
      SplitJoin(lines);
      JoinLastChar(lines);
      Join(lines)
    }
  }

  /** Each spelled-out line is its name aligned to the column, and holds no newline. */
  lemma DebugLinesAligned(v: seq<bool>)
    requires |v| == |DebugNames|
    ensures forall i :: 0 <= i < |DebugNames| ==>
      |DebugNames[i]| <= DebugColumn && '\n' !in DebugLines(v)[i] &&
      DebugLines(v)[i] == Aligned(DebugNames[i], DebugColumn, v[i])
  {
    assert forall i :: 0 <= i < |DebugNames| ==> '\n' !in DebugNames[i];
    forall i | 0 <= i < |DebugNames|
      ensures |DebugNames[i]| <= DebugColumn && '\n' !in DebugLines(v)[i]
      ensures DebugLines(v)[i] == Aligned(DebugNames[i], DebugColumn, v[i])
    {
      DebugLineAt(v, i);
      AlignedNoNewline(DebugNames[i], DebugColumn, v[i]);
    }
  }

  lemma DebugLineAt(v: seq<bool>, i: nat)
    requires |v| == |DebugNames| && i < |DebugNames|
    ensures |DebugNames[i]| <= DebugColumn
    ensures DebugLines(v)[i] == Aligned(DebugNames[i], DebugColumn, v[i])
  {
    SpacesSpelled();
    if i == 0 {
      PaddedLine(DebugNames[0], "    = ", v[0]);
    } else if i == 1 {
      PaddedLine(DebugNames[1], "    = ", v[1]);
    } else if i == 2 {
      PaddedLine(DebugNames[2], "    = ", v[2]);
    } else if i == 3 {
      PaddedLine(DebugNames[3], "   = ", v[3]);
    } else if i == 4 {
      PaddedLine(DebugNames[4], " = ", v[4]);
    } else if i == 5 {
      PaddedLine(DebugNames[5], "   = ", v[5]);
    } else {
      PaddedLine(DebugNames[6], "    = ", v[6]);
    }
  }

  lemma SpacesSpelled()
    ensures Spaces(1) + "= " == " = " && Spaces(3) + "= " == "   = " && Spaces(4) + "= " == "    = "
  {
    assert Spaces(1) == " ";
    assert Spaces(3) == "   ";
    assert Spaces(4) == "    ";
  }

  /** A line spelled as name, gap and value is the aligned line when the gap is the spaces up to the column and `= `. */
  lemma PaddedLine(name: string, gap: string, value: bool)
    requires |name| <= DebugColumn && gap == Spaces(DebugColumn - |name|) + "= "
    ensures Aligned(name, DebugColumn, value) == name + gap + BoolText(value)
  {
    ConcatRegroup(name, Spaces(DebugColumn - |name|), "= ", BoolText(value));
  }

  /** Regrouping a concatenation of four parts. */
  lemma ConcatRegroup<T>(a: seq<T>, b: seq<T>, c: seq<T>, d: seq<T>)
    ensures a + (b + c) + d == a + b + c + d
  {
  }

  /** A write to one of the two mutually exclusive kingdom-start properties. */
  datatype FlagWrite = WriteVassalStart(value: bool) | WriteKingStart(value: bool)

  /**
   * The settings page. Its plain properties start from the configuration;
   * `VassalStart` and `KingStart` are backed by private fields, start from
   * the configuration too, and their setters keep the two exclusive and
   * announce each change (`notifications` lists the announced property names).
   */
  class McmSettings {
    var showCultureStage: bool
    var showFaceGenStage: bool
    var showGenericStage: bool
    var disableIntroVideo: bool
    var promptForPlayerName: bool
    var promptForClanName: bool
    var openBannerEditor: bool
    var landownerStart: bool
    var kingdomId: string

    var vassalStart: bool
    var kingStart: bool
    var notifications: seq<string>

    function Values(): Snapshot
      reads this
    {
      Snapshot(showCultureStage, showFaceGenStage, showGenericStage, disableIntroVideo,
               promptForPlayerName, promptForClanName, openBannerEditor)
    }

    /** At most one of the two kingdom starts is chosen. */
    predicate Exclusive()
      reads this
    {
      !(vassalStart && kingStart)
    }

    /** Every property starts from the configuration; the two backing fields are copied without their setters. */
    constructor (config: Config)
      ensures Values() == config.Values()
      ensures landownerStart == config.landownerStart && kingdomId == config.kingdomId
      ensures vassalStart == config.vassalStart && kingStart == config.kingStart
      ensures notifications == []
    {
      showCultureStage := config.showCultureStage;
      showFaceGenStage := config.showFaceGenStage;
      showGenericStage := config.showGenericStage;
      disableIntroVideo := config.disableIntroVideo;
      promptForPlayerName := config.promptForPlayerName;
      promptForClanName := config.promptForClanName;
      openBannerEditor := config.openBannerEditor;
      landownerStart := config.landownerStart;
      kingdomId := config.kingdomId;
      vassalStart := config.vassalStart;
      kingStart := config.kingStart;
      notifications := [];
    }

    /** The `VassalStart` setter. */
    method SetVassalStart(value: bool)
      modifies this`vassalStart, this`kingStart, this`notifications
      decreases if value then 1 else 0
      ensures old(vassalStart) == value ==>
        vassalStart == value && kingStart == old(kingStart) && notifications == old(notifications)
      ensures old(vassalStart) != value && value && old(kingStart) ==>
        vassalStart && !kingStart && notifications == old(notifications) + ["KingStart", "VassalStart"]
      ensures old(vassalStart) != value && !(value && old(kingStart)) ==>
        vassalStart == value && kingStart == old(kingStart) && notifications == old(notifications) + ["VassalStart"]
    {
      if vassalStart != value {
        if value && kingStart {
          SetKingStart(false);
        }
        vassalStart := value;
        notifications := notifications + ["VassalStart"];
      }
    }

    /** The `KingStart` setter. */
    method SetKingStart(value: bool)
      modifies this`vassalStart, this`kingStart, this`notifications
      decreases if value then 1 else 0
      ensures old(kingStart) == value ==>
        kingStart == value && vassalStart == old(vassalStart) && notifications == old(notifications)
      ensures old(kingStart) != value && value && old(vassalStart) ==>
        kingStart && !vassalStart && notifications == old(notifications) + ["VassalStart", "KingStart"]
      ensures old(kingStart) != value && !(value && old(vassalStart)) ==>
        kingStart == value && vassalStart == old(vassalStart) && notifications == old(notifications) + ["KingStart"]
    {
      if kingStart != value {
        if value && vassalStart {
          SetVassalStart(false);
        }
        kingStart := value;
        notifications := notifications + ["KingStart"];
      }
    }

    /** Any sequence of writes through the two setters keeps the flags exclusive. */
    method ApplyWrites(writes: seq<FlagWrite>)
      requires Exclusive()
      modifies this`vassalStart, this`kingStart, this`notifications
      ensures Exclusive()
    {
      for n := 0 to |writes|
        invariant Exclusive()
      {
        match writes[n]
        case WriteVassalStart(v) => SetVassalStart(v);
        case WriteKingStart(v) => SetKingStart(v);
      }
    }
  }
}
