/** What the six notification tables promise: the same layout in every language, no entry in the
    byte that holds the current-message index, one shared empty text for unused slots, the aliased
    texts, and a warning/information split that does not depend on the language. */
module NotificationProperties {
  import opened Wrappers
  import opened Notifications

  /** What a slot holds, whatever the language: no entry (null), the empty text, an
      information text or a warning text. */
  datatype SlotKind = NullSlot | EmptySlot | InfoSlot | WarningSlot

  function KindOf(entry: Option<string>): SlotKind
  {
    match entry
    case None => NullSlot
    case Some(text) =>
      if text == EmptyStr then EmptySlot
      else if SeverityOf(text) == Warning then WarningSlot
      else InfoSlot
  }

  /** The kinds of the 8 slots of one initializer line. */
  function RowKinds(row: seq<Option<string>>): seq<SlotKind>
    requires |row| == BitsPerByte
  {
    [KindOf(row[0]), KindOf(row[1]), KindOf(row[2]), KindOf(row[3]),
     KindOf(row[4]), KindOf(row[5]), KindOf(row[6]), KindOf(row[7])]
  }

  /** The kinds of all 16 initializer lines of a table. */
  function TableKinds(rows: seq<seq<Option<string>>>): seq<seq<SlotKind>>
    requires |rows| == BitmapBytes && Rectangular(rows, BitsPerByte)
  {
    seq(BitmapBytes, b requires 0 <= b < BitmapBytes => RowKinds(rows[b]))
  }

  /** 16 lines of 8 slot kinds. */
  type KindGrid = grid: seq<seq<SlotKind>> | |grid| == BitmapBytes && Rectangular(grid, BitsPerByte)
    witness seq(BitmapBytes, _ => seq(BitsPerByte, _ => EmptySlot))

  /** The intended layout of every table, written independently of the texts: line `b` gives the
      kinds of the codes `8 * b` to `8 * b + 7`. */
  const Layout: KindGrid := [
    [WarningSlot, EmptySlot, WarningSlot, WarningSlot, WarningSlot, WarningSlot, WarningSlot, WarningSlot],  // byte 0
    [InfoSlot, EmptySlot, WarningSlot, WarningSlot, WarningSlot, WarningSlot, WarningSlot, WarningSlot],  // byte 1
    [WarningSlot, WarningSlot, InfoSlot, WarningSlot, WarningSlot, WarningSlot, WarningSlot, WarningSlot],  // byte 2
    [WarningSlot, WarningSlot, EmptySlot, WarningSlot, EmptySlot, EmptySlot, EmptySlot, InfoSlot],  // byte 3
    [EmptySlot, WarningSlot, EmptySlot, EmptySlot, WarningSlot, WarningSlot, WarningSlot, WarningSlot],  // byte 4
    [WarningSlot, WarningSlot, InfoSlot, InfoSlot, InfoSlot, InfoSlot, InfoSlot, EmptySlot],  // byte 5
    [InfoSlot, EmptySlot, InfoSlot, InfoSlot, EmptySlot, InfoSlot, InfoSlot, WarningSlot],  // byte 6
    [InfoSlot, WarningSlot, InfoSlot, InfoSlot, EmptySlot, WarningSlot, WarningSlot, WarningSlot],  // byte 7
    [InfoSlot, InfoSlot, InfoSlot, InfoSlot, InfoSlot, InfoSlot, InfoSlot, InfoSlot],  // byte 8
    [NullSlot, NullSlot, NullSlot, NullSlot, NullSlot, NullSlot, NullSlot, NullSlot],  // byte 9
    [EmptySlot, EmptySlot, EmptySlot, EmptySlot, EmptySlot, EmptySlot, EmptySlot, EmptySlot],  // byte 10
    [EmptySlot, EmptySlot, EmptySlot, EmptySlot, EmptySlot, EmptySlot, EmptySlot, EmptySlot],  // byte 11
    [EmptySlot, EmptySlot, EmptySlot, EmptySlot, EmptySlot, EmptySlot, EmptySlot, EmptySlot],  // byte 12
    [EmptySlot, EmptySlot, EmptySlot, EmptySlot, EmptySlot, EmptySlot, EmptySlot, EmptySlot],  // byte 13
    [EmptySlot, EmptySlot, EmptySlot, EmptySlot, EmptySlot, EmptySlot, EmptySlot, EmptySlot],  // byte 14
    [EmptySlot, EmptySlot, EmptySlot, EmptySlot, EmptySlot, EmptySlot, EmptySlot, EmptySlot]   // byte 15
  ]

  /** Layout: no entry exactly in the current-index byte. */
  lemma LayoutNullExactlyInCurrentIndexByte()
    ensures forall b, t | 0 <= b < BitmapBytes && 0 <= t < BitsPerByte ::
      Layout[b][t] == NullSlot <==> b == CurrentIndexByte
  {
  }

  /** Layout: bytes 10 to 15 are unused. */
  lemma LayoutUpperBytesEmpty()
    ensures forall b, t | 10 <= b < BitmapBytes && 0 <= t < BitsPerByte :: Layout[b][t] == EmptySlot
  {
  }

  // Each language's table follows the layout, checked on its initializer lines.

  lemma EnglishFollowsLayout()
    ensures TableKinds(MsgRowsEng) == Layout
  {
  }

  lemma FrenchFollowsLayout()
    ensures TableKinds(MsgRowsFr) == Layout
  {
  }

  lemma GermanFollowsLayout()
    ensures TableKinds(MsgRowsGer) == Layout
  {
  }

  lemma SpanishFollowsLayout()
    ensures TableKinds(MsgRowsSpa) == Layout
  {
  }

  lemma ItalianFollowsLayout()
    ensures TableKinds(MsgRowsIta) == Layout
  {
  }

  lemma DutchFollowsLayout()
    ensures TableKinds(MsgRowsDut) == Layout
  {
  }

  /** Every table follows the one layout. */
  lemma FollowsLayout(lang: Language)
    ensures FollowsLayoutRows(MsgRows(lang))
  {
    match lang
    case English => EnglishFollowsLayout();
    case French => FrenchFollowsLayout();
    case German => GermanFollowsLayout();
    case Spanish => SpanishFollowsLayout();
    case Italian => ItalianFollowsLayout();
    case Dutch => DutchFollowsLayout();
  }

  lemma RowKindsAt(row: seq<Option<string>>, t: nat)
    requires |row| == BitsPerByte && t < BitsPerByte
    ensures RowKinds(row)[t] == KindOf(row[t])
  {
  }

  /** Slot `t` of line `b` of the kinds of a table is the kind of that table's slot. */
  lemma TableKindsAt(rows: seq<seq<Option<string>>>, b: nat, t: nat)
    requires |rows| == BitmapBytes && Rectangular(rows, BitsPerByte)
    requires b < BitmapBytes && t < BitsPerByte
    ensures TableKinds(rows)[b][t] == KindOf(rows[b][t])
  {
    RowKindsAt(rows[b], t);
  }

  /** A table, given by its initializer lines, with the shape and the slot kinds of `Layout`. */
  predicate FollowsLayoutRows(rows: seq<seq<Option<string>>>)
  {
    |rows| == BitmapBytes && Rectangular(rows, BitsPerByte) && TableKinds(rows) == Layout
  }

  /** In a table that follows the layout, entry `code` has the kind the layout gives to bit
      `code % 8` of byte `code / 8`. */
  lemma KindOfFlatEntry(rows: seq<seq<Option<string>>>, code: nat)
    requires FollowsLayoutRows(rows) && code < SlotCount
    ensures code < |Flatten(rows)|
    ensures KindOf(Flatten(rows)[code]) == Layout[code / BitsPerByte][code % BitsPerByte]
  {
    var b, t := code / BitsPerByte, code % BitsPerByte;
    assert code == b * BitsPerByte + t;
    FlattenIndex(rows, BitsPerByte, b, t);
    TableKindsAt(rows, b, t);
  }

  /** In a table that follows the layout, the entries without text pointer are exactly the codes
      0x48 to 0x4F of byte 9. */
  lemma NullEntriesOfLayout(rows: seq<seq<Option<string>>>, code: nat)
    requires FollowsLayoutRows(rows) && code < SlotCount
    ensures code < |Flatten(rows)|
    ensures Flatten(rows)[code] == None <==> 0x48 <= code <= 0x4F
  {
    KindOfFlatEntry(rows, code);
    LayoutNullExactlyInCurrentIndexByte();
  }

  /** In a table that follows the layout, every code of bytes 10 to 15 is the empty text. */
  lemma UpperEntriesOfLayout(rows: seq<seq<Option<string>>>, code: nat)
    requires FollowsLayoutRows(rows) && 0x50 <= code < SlotCount
    ensures code < |Flatten(rows)|
    ensures Flatten(rows)[code] == Some(EmptyStr)
  {
    KindOfFlatEntry(rows, code);
    LayoutUpperBytesEmpty();
  }

  /** Two tables that follow the layout give every code the same kind of entry. */
  lemma SameKinds(rows1: seq<seq<Option<string>>>, rows2: seq<seq<Option<string>>>, code: nat)
    requires FollowsLayoutRows(rows1) && FollowsLayoutRows(rows2) && code < SlotCount
    ensures code < |Flatten(rows1)| && code < |Flatten(rows2)|
    ensures KindOf(Flatten(rows1)[code]) == KindOf(Flatten(rows2)[code])
  {
    KindOfFlatEntry(rows1, code);
    KindOfFlatEntry(rows2, code);
  }

  /** The table of a language is its initializer lines, flattened. */
  lemma TableIsFlattenedRows(lang: Language)
    ensures MsgTable(lang) == Flatten(MsgRows(lang))
  {
    match lang
    case English =>
    case French =>
    case German =>
    case Spanish =>
    case Italian =>
    case Dutch =>
  }

  /** The kind of every slot, in every language, is the one the layout gives. */
  lemma KindOfSlot(lang: Language, byteIdx: nat, bitIdx: nat)
    requires byteIdx < BitmapBytes && bitIdx < BitsPerByte
    ensures KindOf(Lookup(lang, byteIdx, bitIdx)) == Layout[byteIdx][bitIdx]
  {
    FollowsLayout(lang);
    TableKindsAt(MsgRows(lang), byteIdx, bitIdx);
  }

  /** The same, addressed by notification code. */
  lemma KindOfCode(lang: Language, code: nat)
    requires code < SlotCount
    ensures code / BitsPerByte < BitmapBytes
    ensures KindOf(MsgTable(lang)[code]) == Layout[code / BitsPerByte][code % BitsPerByte]
  {
    FollowsLayout(lang);
    TableIsFlattenedRows(lang);
    KindOfFlatEntry(MsgRows(lang), code);
  }

  /** Splitting a code into byte and bit and recombining them gives the code back. */
  lemma SlotCodeRoundTrip(code: nat)
    requires code < SlotCount
    ensures code / BitsPerByte < BitmapBytes
    ensures SlotCode(code / BitsPerByte, code % BitsPerByte) == code
  {
  }

  /** A lookup yields no entry exactly when it addresses the byte that carries the index of the
      current message, in every language. */
  lemma CurrentIndexByteHasNoEntries(lang: Language, byteIdx: nat, bitIdx: nat)
    requires byteIdx < BitmapBytes && bitIdx < BitsPerByte
    ensures Lookup(lang, byteIdx, bitIdx) == None <==> byteIdx == CurrentIndexByte
  {
    KindOfSlot(lang, byteIdx, bitIdx);
    LayoutNullExactlyInCurrentIndexByte();
  }

  /** The codes without entry are exactly 0x48 to 0x4F, in every language. */
  lemma NullCodesAreByteNine(lang: Language, code: nat)
    requires code < SlotCount
    ensures MsgTable(lang)[code] == None <==> 0x48 <= code <= 0x4F
  {
    FollowsLayout(lang);
    TableIsFlattenedRows(lang);
    NullEntriesOfLayout(MsgRows(lang), code);
  }

  /** Every slot of bytes 10 to 15 is the empty text, in every language. */
  lemma UpperBytesUnused(lang: Language, code: nat)
    requires 0x50 <= code < SlotCount
    ensures MsgTable(lang)[code] == Some(EmptyStr)
  {
    FollowsLayout(lang);
    TableIsFlattenedRows(lang);
    UpperEntriesOfLayout(MsgRows(lang), code);
  }

  /** An entry that carries a user-facing text. */
  predicate HasText(entry: Option<string>)
  {
    entry.Some? && entry.value != EmptyStr
  }

  /** The six tables have one topology: a slot is null, the empty text or a text in one language
      exactly when it is so in any other, and a text is a warning in one language exactly when it
      is one in any other. */
  lemma TopologyAgrees(lang1: Language, lang2: Language, code: nat)
    requires code < SlotCount
    ensures MsgTable(lang1)[code] == None <==> MsgTable(lang2)[code] == None
    ensures MsgTable(lang1)[code] == Some(EmptyStr) <==> MsgTable(lang2)[code] == Some(EmptyStr)
    ensures HasText(MsgTable(lang1)[code]) <==> HasText(MsgTable(lang2)[code])
    ensures HasText(MsgTable(lang1)[code]) ==>
      SeverityOf(MsgTable(lang1)[code].value) == SeverityOf(MsgTable(lang2)[code].value)
  {
    FollowsLayout(lang1);
    FollowsLayout(lang2);
    TableIsFlattenedRows(lang1);
    TableIsFlattenedRows(lang2);
    SameKinds(MsgRows(lang1), MsgRows(lang2), code);
  }

  /** The Dutch texts of codes 0x2D and 0x2E end in "! ", with a space after the '!', and so are
      information, as the English texts of these codes are. */
  lemma DutchTrailingSpaceIsInfo()
    ensures HasText(MsgTable(Dutch)[0x2D]) && EndsWith(MsgTable(Dutch)[0x2D].value, "! ")
    ensures HasText(MsgTable(Dutch)[0x2E]) && EndsWith(MsgTable(Dutch)[0x2E].value, "! ")
    ensures SeverityOf(MsgTable(Dutch)[0x2D].value) == Info
    ensures SeverityOf(MsgTable(Dutch)[0x2E].value) == Info
    ensures HasText(MsgTable(English)[0x2D]) && SeverityOf(MsgTable(English)[0x2D].value) == Info
    ensures HasText(MsgTable(English)[0x2E]) && SeverityOf(MsgTable(English)[0x2E].value) == Info
  {
    assert MsgTable(English)[0x2D] == Lookup(English, 5, 5);
    assert MsgTable(English)[0x2E] == Lookup(English, 5, 6);
    assert MsgTable(Dutch)[0x2D] == Lookup(Dutch, 5, 5);
    assert MsgTable(Dutch)[0x2E] == Lookup(Dutch, 5, 6);
  }

  /** Codes 0x3E and 0x3F show the text of code 0x3D in every language. */
  lemma TyreSensorAliases(lang: Language)
    ensures HasText(MsgTable(lang)[0x3D])
    ensures MsgTable(lang)[0x3E] == MsgTable(lang)[0x3D]
    ensures MsgTable(lang)[0x3F] == MsgTable(lang)[0x3D]
  {
    assert MsgTable(lang)[0x3D] == Lookup(lang, 7, 5);
    assert MsgTable(lang)[0x3E] == Lookup(lang, 7, 6);
    assert MsgTable(lang)[0x3F] == Lookup(lang, 7, 7);
  }

  /** Code 0x12 is the English "Check Control OK" in every language. */
  lemma CheckControlOkInEveryLanguage(lang: Language)
    ensures MsgTable(lang)[0x12] == Some("Check Control OK")
  {
    assert MsgTable(lang)[0x12] == Lookup(lang, 2, 2);
  }

  /** Codes 0x18 and 0x19 have equal texts in every language, although each is its own literal. */
  lemma AirbagTextsEqual(lang: Language)
    ensures HasText(MsgTable(lang)[0x18])
    ensures MsgTable(lang)[0x19] == MsgTable(lang)[0x18]
  {
    assert MsgTable(lang)[0x18] == Lookup(lang, 3, 0);
    assert MsgTable(lang)[0x19] == Lookup(lang, 3, 1);
  }

  /** Code 0 in English: the tyre pressure warning. */
  lemma FirstCodeIsTyrePressureWarning()
    ensures Lookup(English, 0, 0) == Some("Tyre pressure too low!")
    ensures SeverityOf(Lookup(English, 0, 0).value) == Warning
  {
  }
}
