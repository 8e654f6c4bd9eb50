/**
 * The configuration of v1.0.0 (Config.cs): four flags with their defaults,
 * a copy from the settings page and a multi-line dump for the log.
 * McmSettings.cs of v1.0.0 is not part of this model; the settings page is
 * represented by the four values `CopyFrom` reads from it.
 */
module LegacyConfig {
  import opened Text

  /** The four flags, in declaration order, as the settings page holds them. */
  datatype Snapshot = Snapshot(
    skipCultureStage: bool,
    skipFaceGenStage: bool,
    skipGenericStage: bool,
    promptForClanName: bool)

  /** Column at which every line of the dump puts its `=`. */
  const DumpColumn: nat := 18

  /** The property names, in declaration order. */
  const DumpNames: seq<string> := ["SkipCultureStage", "SkipFaceGenStage", "SkipGenericStage", "PromptForClanName"]

  /** The four lines of the dump, as the source spells them, for the flags `v`. */
  function DumpLines(v: seq<bool>): seq<string>
    requires |v| == |DumpNames|
  {
    [DumpNames[0] + "  = " + BoolText(v[0]),
     DumpNames[1] + "  = " + BoolText(v[1]),
     DumpNames[2] + "  = " + BoolText(v[2]),
     DumpNames[3] + " = " + BoolText(v[3])]
  }

  /** The static configuration of v1.0.0. */
  class Config {
    var skipCultureStage: bool
    var skipFaceGenStage: bool
    var skipGenericStage: bool
    var promptForClanName: bool

    /** The four flags. */
    function Values(): Snapshot
      reads this
    {
      Snapshot(skipCultureStage, skipFaceGenStage, skipGenericStage, promptForClanName)
    }

    /** The four flags as a list, in declaration order. */
    function Flags(): (r: seq<bool>)
      reads this
      ensures |r| == |DumpNames|
    {
      [skipCultureStage, skipFaceGenStage, skipGenericStage, promptForClanName]
    }

    /** The declared defaults: the three stages skipped, no clan-name prompt. */
    constructor ()
      ensures skipCultureStage && skipFaceGenStage && skipGenericStage
      ensures !promptForClanName
    {
      skipCultureStage := true;
      skipFaceGenStage := true;
      skipGenericStage := true;
      promptForClanName := false;
    }

    /**
     * Copies the four flags from the settings page. A second call with the
     * same settings finds them equal already and changes nothing.
     */
    method CopyFrom(settings: Snapshot)
      modifies this
      ensures Values() == settings
      ensures old(Values()) == settings ==> unchanged(this)
    {
      skipCultureStage := settings.skipCultureStage;
      skipFaceGenStage := settings.skipFaceGenStage;
      skipGenericStage := settings.skipGenericStage;
      promptForClanName := settings.promptForClanName;
    }

    /** One `Name = value` line per flag, in declaration order, `=` aligned, no trailing newline. */
    function ToMultiLineString(): (r: string)
      reads this
      ensures |Split(r)| == |DumpNames|
      ensures forall i :: 0 <= i < |DumpNames| ==>
        |DumpNames[i]| <= DumpColumn && Split(r)[i] == Aligned(DumpNames[i], DumpColumn, Flags()[i])
      ensures |r| > 0 && r[|r| - 1] != '\n'
    {
      var lines := DumpLines(Flags());
      DumpLinesAligned(Flags());
      SplitJoin(lines);
      JoinLastChar(lines);
      Join(lines)
    }
  }

  /** Each spelled-out line is its name aligned to the column, and holds no newline. */
  lemma DumpLinesAligned(v: seq<bool>)
    requires |v| == |DumpNames|
    ensures forall i :: 0 <= i < |DumpNames| ==>
      |DumpNames[i]| <= DumpColumn && '\n' !in DumpLines(v)[i] &&
      DumpLines(v)[i] == Aligned(DumpNames[i], DumpColumn, v[i])
  {
    assert forall i :: 0 <= i < |DumpNames| ==> '\n' !in DumpNames[i];
    forall i | 0 <= i < |DumpNames|
      ensures |DumpNames[i]| <= DumpColumn && '\n' !in DumpLines(v)[i]
      ensures DumpLines(v)[i] == Aligned(DumpNames[i], DumpColumn, v[i])
    {
      DumpLineAt(v, i);
      AlignedNoNewline(DumpNames[i], DumpColumn, v[i]);
    }
  }

  lemma DumpLineAt(v: seq<bool>, i: nat)
    requires |v| == |DumpNames| && i < |DumpNames|
    ensures |DumpNames[i]| <= DumpColumn
    ensures DumpLines(v)[i] == Aligned(DumpNames[i], DumpColumn, v[i])
  {
    assert Spaces(1) + "= " == " = ";
    assert Spaces(2) + "= " == "  = ";
  }
}
