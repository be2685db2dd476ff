# VanLiveConnect notification catalogue and sat-nav packet filter

VanLiveConnect listens to the VAN comfort bus of a Peugeot 406 (`Notifications.c:7`) and shows
what it hears in a browser. This project models two pure, table-driven parts of it:

- **The notification catalogue** (`VanLiveConnect/Notifications.c`). The notifications arrive as
  a 16-byte bitmap of up to 128 flags. Bit `b` of byte `B` is notification code
  `B * 8 + b`. For each of six languages (English, French, German, Spanish, Italian, Dutch), a
  128-entry table gives the text of every code. Unused codes share one empty text (`emptyStr`).
  Several codes reuse another code's text through a `#define` alias. The eight codes of byte 9
  have no entry at all (a null pointer), because that byte holds the index of the current
  message. By convention a text ending in `!` is a warning and any other text is information.
- **The VAN identifiers and the sat-nav packet predicate** (`VanLiveConnect/VanIden.h`). There
  are 35 frame identifiers. `IsSatnavPacket` decides whether a received packet belongs to the
  navigation system. It looks only at the identifier, the payload length and the first payload byte.

Both parts are constant data and pure expressions, so the model uses only datatypes, constants,
functions and lemmas. There are no classes and no loops.

Files:

- `wrappers.dfy`: `Option`. `None` stands for a C null pointer.
- `notifications.dfy`: module `Notifications`. It holds every text constant and the six tables.
  Each table is written as its 16 initializer lines of 8 slots (`MsgRows`) and flattened into
  the 128-entry `MsgTable`. It also holds the slot-code arithmetic, `Lookup`, and the
  warning convention `SeverityOf`.
- `notification_properties.dfy`: module `NotificationProperties`. It proves the properties
  of the tables. `Layout` is a 16×8 grid of slot kinds (null, empty, information, warning),
  written independently of the texts. Every language's table is proved to follow it, and the
  lemmas about codes are derived from that one fact.
- `van_iden.dfy`: module `VanIden`. It holds the identifier constants, the `Frame` enumeration
  with its identifier map and inverse, the packet value and `IsSatnavPacket` with its characterization.

A C alias (`#define msg_7_6_eng msg_7_5_eng`) and two equal literals are both modelled as
equal string values. The model states which text each code gets, not pointer identity.

## Model

| member | source | states |
|---|---|---|
| Notifications.MsgRows | VanLiveConnect/Notifications.c:558-676 | every language's table consists of exactly 16 initializer lines of exactly 8 slots each |
| Notifications.MsgTable | VanLiveConnect/Notifications.c:558-676 | every table has exactly 128 entries, and entry `b * 8 + t` is slot `t` of initializer line `b` |
| Notifications.FlattenLength | VanLiveConnect/Notifications.c:558-576 | writing a table as lines of equal width gives a table of lines × width entries |
| Notifications.FlattenIndex | VanLiveConnect/Notifications.c:558-576 | slot `t` of line `b` lands at flat index `b * width + t` of the table |
| Notifications.SlotCode | VanLiveConnect/Notifications.c:14 | the code of bit `bitIdx` of byte `byteIdx` is below 128, and dividing it by 8 gives back the byte while the remainder gives back the bit (byte 0 holds codes 0x00 to 0x07) |
| Notifications.Lookup | VanLiveConnect/Notifications.c:558-676 | looking up a byte and bit in a language yields that bit's slot of that byte's initializer line in that language's table |
| Notifications.WarningIffEndsWithBang | VanLiveConnect/Notifications.c:11 | the severity `SeverityOf` gives a text is warning exactly when the text ends with '!'; the empty text and every other text are information |
| NotificationProperties.SlotCodeRoundTrip | VanLiveConnect/Notifications.c:545 | splitting any code below 128 into byte and bit and recombining them gives the code back (byte 15 holds 0x78 to 0x7F) |
| NotificationProperties.LayoutNullExactlyInCurrentIndexByte | VanLiveConnect/Notifications.c:480 | in the layout, a slot is null exactly when it lies in byte 9 |
| NotificationProperties.LayoutUpperBytesEmpty | VanLiveConnect/Notifications.c:483-554 | in the layout, every slot of bytes 10 to 15 is the empty text |
| NotificationProperties.EnglishFollowsLayout | VanLiveConnect/Notifications.c:558-576 | the English table has exactly the null, empty, information and warning slots the layout gives |
| NotificationProperties.FrenchFollowsLayout | VanLiveConnect/Notifications.c:578-596 | the French table follows the layout |
| NotificationProperties.GermanFollowsLayout | VanLiveConnect/Notifications.c:598-616 | the German table follows the layout |
| NotificationProperties.SpanishFollowsLayout | VanLiveConnect/Notifications.c:618-636 | the Spanish table follows the layout |
| NotificationProperties.ItalianFollowsLayout | VanLiveConnect/Notifications.c:638-656 | the Italian table follows the layout |
| NotificationProperties.DutchFollowsLayout | VanLiveConnect/Notifications.c:658-676 | the Dutch table follows the layout |
| NotificationProperties.FollowsLayout | VanLiveConnect/Notifications.c:558-676 | every language's table has 16 lines of 8 slots whose kinds are exactly the ones of the layout |
| NotificationProperties.KindOfFlatEntry | VanLiveConnect/Notifications.c:14 | in any table that follows the layout, entry `code` exists and has the kind the layout gives to bit `code % 8` of byte `code / 8` |
| NotificationProperties.NullEntriesOfLayout | VanLiveConnect/Notifications.c:480 | in any table that follows the layout, an entry is null if and only if its code lies in 0x48 to 0x4F |
| NotificationProperties.UpperEntriesOfLayout | VanLiveConnect/Notifications.c:483-554 | in any table that follows the layout, every code from 0x50 to 0x7F is the empty text |
| NotificationProperties.SameKinds | VanLiveConnect/Notifications.c:5-11 | any two tables that follow the layout give every code the same kind of entry |
| NotificationProperties.KindOfSlot | VanLiveConnect/Notifications.c:558-676 | the kind of the entry at any byte and bit in any language is the one the layout gives |
| NotificationProperties.KindOfCode | VanLiveConnect/Notifications.c:558-676 | the kind of the entry of any code in any language is the one the layout gives for that code's byte and bit |
| NotificationProperties.CurrentIndexByteHasNoEntries | VanLiveConnect/Notifications.c:569 | in every language a lookup yields no entry if and only if it addresses byte 9, which holds the current-message index |
| NotificationProperties.NullCodesAreByteNine | VanLiveConnect/Notifications.c:589 | in every language the entry of a code is null if and only if the code lies in 0x48 to 0x4F |
| NotificationProperties.UpperBytesUnused | VanLiveConnect/Notifications.c:485-554 | in every language every code from 0x50 to 0x7F is the shared empty text |
| NotificationProperties.TopologyAgrees | VanLiveConnect/Notifications.c:5-11 | for any two languages and any code: one entry is null iff the other is, one is the empty text iff the other is, one has a text iff the other has, and then both are warnings or both are information |
| NotificationProperties.DutchTrailingSpaceIsInfo | VanLiveConnect/Notifications.c:301-313 | the Dutch texts of codes 0x2D and 0x2E have text ending in "! " (a space after the '!') and so are information, and the English texts of both codes are information too |
| NotificationProperties.TyreSensorAliases | VanLiveConnect/Notifications.c:406-418 | in every language code 0x3D has a text, and codes 0x3E and 0x3F have exactly that text |
| NotificationProperties.CheckControlOkInEveryLanguage | VanLiveConnect/Notifications.c:138-143 | in every language code 0x12 is the English text "Check Control OK" |
| NotificationProperties.AirbagTextsEqual | VanLiveConnect/Notifications.c:183-195 | in every language code 0x18 has a text and code 0x19 has the same text, although the two are separate literals |
| NotificationProperties.FirstCodeIsTyrePressureWarning | VanLiveConnect/Notifications.c:16 | English code 0x00 is "Tyre pressure too low!", and it is a warning |
| VanIden.IdenOf | VanLiveConnect/VanIden.h:8-42 | every one of the 35 identifiers fits in 12 bits |
| VanIden.FrameOfIdenOf | VanLiveConnect/VanIden.h:8-42 | mapping a frame to its identifier and back gives the same frame |
| VanIden.IdenOfFrameOf | VanLiveConnect/VanIden.h:8-42 | an identifier that names a frame is that frame's identifier |
| VanIden.IdensDistinct | VanLiveConnect/VanIden.h:8-42 | two frames with the same identifier are the same frame: the 35 identifiers are pairwise distinct |
| VanIden.IsSatnavPacket | VanLiveConnect/VanIden.h:44-54 | a sat-nav packet has at least 3 payload bytes and one of the five navigation identifiers; the payload is read only after the length test |
| VanIden.ShortPacketIsNotSatnav | VanLiveConnect/VanIden.h:47 | a packet with fewer than 3 payload bytes is never a sat-nav packet, whatever its identifier and payload |
| VanIden.DeviceReportSatnavIffFirstByte | VanLiveConnect/VanIden.h:49 | a device report of at least 3 bytes is a sat-nav packet if and only if its first payload byte is 0x07 |
| VanIden.NavigationOnlyFramesAreSatnav | VanLiveConnect/VanIden.h:50-53 | a packet of at least 3 bytes from sat-nav status 1, guidance, report or sat-nav-to-display is a sat-nav packet, whatever its payload |
| VanIden.OtherNavigationFramesAreNotSatnav | VanLiveConnect/VanIden.h:25-34 | packets from the display-to-sat-nav frame, sat-nav status 2 and 3, guidance data and the download frames are never sat-nav packets |
| VanIden.SatnavByFrame | VanLiveConnect/VanIden.h:46-54 | a packet is a sat-nav packet if and only if it has at least 3 bytes and either is a device report with first byte 0x07 or comes from one of the four navigation-only frames |
| VanIden.OnlyFirstPayloadByteMatters | VanLiveConnect/VanIden.h:46-54 | two packets with the same identifier, at least 3 payload bytes each and the same first payload byte get the same verdict |

## Left out

- Flash storage: `PROGMEM`, `pgmspace.h` and `pgm_read_ptr` only decide where the tables live. They are modelled as immutable sequences.
- Pointer identity: an alias and an equal literal are both modelled as equal strings. So the model does not tell codes 0x18/0x19 (two literals) from 0x3E/0x3F (aliases of 0x3D) by storage, only by value.
- Text content: the strings are copied verbatim, typos and accented letters included. Only emptiness, equality and the last character take part in the properties.
- The packet type: the receive descriptor of the bus library (capture, CRC, framing) is not part of this model. A packet is an identifier and a sequence of bytes, and its data length is the length of that sequence.
- The decoder that turns the 16-byte bitmap into active and current notifications, the JSON and websocket output, and the switch that dispatches on frame identifiers are not part of this model. `FrameOf` is only the inverse of the identifier constants.
- Build-time configuration (Wi-Fi, pins, debug switches) and the version macros hold no logic and are not modelled.
