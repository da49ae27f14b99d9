/** The announcement action codec: an action id is level * 8 + type, for
    the three levels announce, contra and re-contra; 24 is the pass. The
    same codec appears in phases.cc and in announcements.h. */
module AnnouncementCodec {
  import opened TarokRecords

  datatype Level = Announce | Contra | ReContra

  function LevelIndex(l: Level): int
  {
    match l
    case Announce => 0
    case Contra => 1
    case ReContra => 2
  }

  datatype AnnouncementAction = AnnouncementAction(kind: AnnouncementType, level: Level)

  /** The pass action, one past the last declaration id. */
  const PassAction := NumAnnouncementTypes * 3

  /** Encodes a declaration: the level selects a block of eight ids and
      the type the position inside it. */
  function ToAction(a: AnnouncementAction): (action: int)
    ensures 0 <= action < PassAction
    ensures action / NumAnnouncementTypes == LevelIndex(a.level)
    ensures action % NumAnnouncementTypes == TypeIndex(a.kind)
  {
    LevelIndex(a.level) * NumAnnouncementTypes + TypeIndex(a.kind)
  }

  /** Decodes an id below 24; the encoding of the result is the id. */
  function FromAction(action: int): (a: AnnouncementAction)
    requires 0 <= action < PassAction
    ensures ToAction(a) == action
  {
    var level := if action / NumAnnouncementTypes == 0 then Announce
                 else if action / NumAnnouncementTypes == 1 then Contra
                 else ReContra;
    AnnouncementAction(TypeOfIndex(action % NumAnnouncementTypes), level)
  }

  /** The blocks of eight: which block an id lies in gives its level, and
      its place in the block its type. */
  lemma ActionParts(action: int)
    requires 0 <= action < PassAction
    ensures var a := FromAction(action);
      && (a.level == Announce <==> action < NumAnnouncementTypes)
      && (a.level == Contra <==> NumAnnouncementTypes <= action < 2 * NumAnnouncementTypes)
      && (a.level == ReContra <==> 2 * NumAnnouncementTypes <= action)
      && TypeIndex(a.kind) == action - LevelIndex(a.level) * NumAnnouncementTypes
  {
  }

  /** Decoding an encoded declaration gives it back. */
  lemma DecodeEncode(a: AnnouncementAction)
    ensures FromAction(ToAction(a)) == a
  {
    var b := FromAction(ToAction(a));
    assert TypeIndex(b.kind) == TypeIndex(a.kind);
    assert LevelIndex(b.level) == LevelIndex(a.level);
  }

  /** Distinct declarations have distinct ids. */
  lemma EncodingIsInjective(a: AnnouncementAction, b: AnnouncementAction)
    requires ToAction(a) == ToAction(b)
    ensures a == b
  {
    DecodeEncode(a);
    DecodeEncode(b);
  }

  function AnnounceAction(t: AnnouncementType): (action: int)
    ensures 0 <= action < NumAnnouncementTypes && action != PassAction
    ensures FromAction(action) == AnnouncementAction(t, Announce)
  {
    DecodeEncode(AnnouncementAction(t, Announce));
    ToAction(AnnouncementAction(t, Announce))
  }

  function ContraAction(t: AnnouncementType): (action: int)
    ensures NumAnnouncementTypes <= action < 2 * NumAnnouncementTypes && action != PassAction
    ensures FromAction(action) == AnnouncementAction(t, Contra)
  {
    DecodeEncode(AnnouncementAction(t, Contra));
    ToAction(AnnouncementAction(t, Contra))
  }

  function ReContraAction(t: AnnouncementType): (action: int)
    ensures 2 * NumAnnouncementTypes <= action < PassAction
    ensures FromAction(action) == AnnouncementAction(t, ReContra)
  {
    DecodeEncode(AnnouncementAction(t, ReContra));
    ToAction(AnnouncementAction(t, ReContra))
  }
}
