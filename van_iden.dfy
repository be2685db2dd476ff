/** Identifiers of the VAN bus frames this system knows, and the test that tells whether a
    received packet belongs to the satellite navigation traffic. An identifier is 12 bits wide. */
module VanIden {
  import opened Wrappers

  /** One more than the largest 12-bit identifier. */
  const IdenLimit: int := 0x1000

  const VinIden: int := 0xE24
  const EngineIden: int := 0x8A4
  const HeadUnitStalkIden: int := 0x9C4
  const LightsStatusIden: int := 0x4FC
  const DeviceReport: int := 0x8C4
  const CarStatus1Iden: int := 0x564
  const CarStatus2Iden: int := 0x524
  const DashboardIden: int := 0x824
  const DashboardButtonsIden: int := 0x664
  const HeadUnitIden: int := 0x554
  const MfdLanguageUnitsIden: int := 0x984
  const AudioSettingsIden: int := 0x4D4
  const MfdStatusIden: int := 0x5E4
  const Aircon1Iden: int := 0x464
  const Aircon2Iden: int := 0x4DC
  const CdChangerIden: int := 0x4EC
  const SatnavStatus1Iden: int := 0x54E
  const SatnavStatus2Iden: int := 0x7CE
  const SatnavStatus3Iden: int := 0x8CE
  const SatnavGuidanceDataIden: int := 0x9CE
  const SatnavGuidanceIden: int := 0x64E
  const SatnavReportIden: int := 0x6CE
  const MfdToSatnavIden: int := 0x94E
  const SatnavToMfdIden: int := 0x74E
  const SatnavDownloadingIden: int := 0x6F4
  const SatnavDownloaded1Iden: int := 0xA44
  const SatnavDownloaded2Iden: int := 0xAC4
  const WheelSpeedIden: int := 0x744
  const OdometerIden: int := 0x8FC
  const Com2000Iden: int := 0x450
  const CdChangerCommandIden: int := 0x8EC
  const MfdToHeadUnitIden: int := 0x8D4
  const AirConditionerDiagIden: int := 0xADC
  const AirConditionerDiagCommandIden: int := 0xA5C
  const EcuIden: int := 0xB0E

  /** The frames named by the constants above, one constructor per constant. */
  datatype Frame =
    | VinFrame | EngineFrame | HeadUnitStalkFrame | LightsStatusFrame | DeviceReportFrame
    | CarStatus1Frame | CarStatus2Frame | DashboardFrame | DashboardButtonsFrame | HeadUnitFrame
    | MfdLanguageUnitsFrame | AudioSettingsFrame | MfdStatusFrame | Aircon1Frame | Aircon2Frame
    | CdChangerFrame | SatnavStatus1Frame | SatnavStatus2Frame | SatnavStatus3Frame
    | SatnavGuidanceDataFrame | SatnavGuidanceFrame | SatnavReportFrame | MfdToSatnavFrame
    | SatnavToMfdFrame | SatnavDownloadingFrame | SatnavDownloaded1Frame | SatnavDownloaded2Frame
    | WheelSpeedFrame | OdometerFrame | Com2000Frame | CdChangerCommandFrame | MfdToHeadUnitFrame
    | AirConditionerDiagFrame | AirConditionerDiagCommandFrame | EcuFrame
  {
    /** The four frames that carry only satellite navigation traffic. */
    predicate OnlySatnav()
    {
      this in {SatnavStatus1Frame, SatnavGuidanceFrame, SatnavReportFrame, SatnavToMfdFrame}
    }
  }

  /** The identifier of each named frame; every one fits in 12 bits. */
  function IdenOf(frame: Frame): (iden: int)
    ensures 0 <= iden < IdenLimit
  {
    match frame
    case VinFrame => VinIden
    case EngineFrame => EngineIden
    case HeadUnitStalkFrame => HeadUnitStalkIden
    case LightsStatusFrame => LightsStatusIden
    case DeviceReportFrame => DeviceReport
    case CarStatus1Frame => CarStatus1Iden
    case CarStatus2Frame => CarStatus2Iden
    case DashboardFrame => DashboardIden
    case DashboardButtonsFrame => DashboardButtonsIden
    case HeadUnitFrame => HeadUnitIden
    case MfdLanguageUnitsFrame => MfdLanguageUnitsIden
    case AudioSettingsFrame => AudioSettingsIden
    case MfdStatusFrame => MfdStatusIden
    case Aircon1Frame => Aircon1Iden
    case Aircon2Frame => Aircon2Iden
    case CdChangerFrame => CdChangerIden
    case SatnavStatus1Frame => SatnavStatus1Iden
    case SatnavStatus2Frame => SatnavStatus2Iden
    case SatnavStatus3Frame => SatnavStatus3Iden
    case SatnavGuidanceDataFrame => SatnavGuidanceDataIden
    case SatnavGuidanceFrame => SatnavGuidanceIden
    case SatnavReportFrame => SatnavReportIden
    case MfdToSatnavFrame => MfdToSatnavIden
    case SatnavToMfdFrame => SatnavToMfdIden
    case SatnavDownloadingFrame => SatnavDownloadingIden
    case SatnavDownloaded1Frame => SatnavDownloaded1Iden
    case SatnavDownloaded2Frame => SatnavDownloaded2Iden
    case WheelSpeedFrame => WheelSpeedIden
    case OdometerFrame => OdometerIden
    case Com2000Frame => Com2000Iden
    case CdChangerCommandFrame => CdChangerCommandIden
    case MfdToHeadUnitFrame => MfdToHeadUnitIden
    case AirConditionerDiagFrame => AirConditionerDiagIden
    case AirConditionerDiagCommandFrame => AirConditionerDiagCommandIden
    case EcuFrame => EcuIden
  }

  /** The named frame an identifier belongs to, if any. */
  function FrameOf(iden: int): Option<Frame>
  {
    if iden == VinIden then Some(VinFrame)
    else if iden == EngineIden then Some(EngineFrame)
    else if iden == HeadUnitStalkIden then Some(HeadUnitStalkFrame)
    else if iden == LightsStatusIden then Some(LightsStatusFrame)
    else if iden == DeviceReport then Some(DeviceReportFrame)
    else if iden == CarStatus1Iden then Some(CarStatus1Frame)
    else if iden == CarStatus2Iden then Some(CarStatus2Frame)
    else if iden == DashboardIden then Some(DashboardFrame)
    else if iden == DashboardButtonsIden then Some(DashboardButtonsFrame)
    else if iden == HeadUnitIden then Some(HeadUnitFrame)
    else if iden == MfdLanguageUnitsIden then Some(MfdLanguageUnitsFrame)
    else if iden == AudioSettingsIden then Some(AudioSettingsFrame)
    else if iden == MfdStatusIden then Some(MfdStatusFrame)
    else if iden == Aircon1Iden then Some(Aircon1Frame)
    else if iden == Aircon2Iden then Some(Aircon2Frame)
    else if iden == CdChangerIden then Some(CdChangerFrame)
    else if iden == SatnavStatus1Iden then Some(SatnavStatus1Frame)
    else if iden == SatnavStatus2Iden then Some(SatnavStatus2Frame)
    else if iden == SatnavStatus3Iden then Some(SatnavStatus3Frame)
    else if iden == SatnavGuidanceDataIden then Some(SatnavGuidanceDataFrame)
    else if iden == SatnavGuidanceIden then Some(SatnavGuidanceFrame)
    else if iden == SatnavReportIden then Some(SatnavReportFrame)
    else if iden == MfdToSatnavIden then Some(MfdToSatnavFrame)
    else if iden == SatnavToMfdIden then Some(SatnavToMfdFrame)
    else if iden == SatnavDownloadingIden then Some(SatnavDownloadingFrame)
    else if iden == SatnavDownloaded1Iden then Some(SatnavDownloaded1Frame)
    else if iden == SatnavDownloaded2Iden then Some(SatnavDownloaded2Frame)
    else if iden == WheelSpeedIden then Some(WheelSpeedFrame)
    else if iden == OdometerIden then Some(OdometerFrame)
    else if iden == Com2000Iden then Some(Com2000Frame)
    else if iden == CdChangerCommandIden then Some(CdChangerCommandFrame)
    else if iden == MfdToHeadUnitIden then Some(MfdToHeadUnitFrame)
    else if iden == AirConditionerDiagIden then Some(AirConditionerDiagFrame)
    else if iden == AirConditionerDiagCommandIden then Some(AirConditionerDiagCommandFrame)
    else if iden == EcuIden then Some(EcuFrame)
    else None
  }

  /** Looking up the identifier of a named frame finds that frame again. */
  lemma FrameOfIdenOf(frame: Frame)
    ensures FrameOf(IdenOf(frame)) == Some(frame)
  {
  }

  /** A frame found for an identifier has that identifier. */
  lemma IdenOfFrameOf(iden: int)
    ensures FrameOf(iden).Some? ==> IdenOf(FrameOf(iden).value) == iden
  {
  }

  /** The identifier constants are pairwise distinct. */
  lemma IdensDistinct(a: Frame, b: Frame)
    ensures IdenOf(a) == IdenOf(b) ==> a == b
  {
    FrameOfIdenOf(a);
    FrameOfIdenOf(b);
  }

  /** The identifiers for which a packet can be navigation traffic. */
  const SatnavIdens: set<int> :=
    {DeviceReport, SatnavStatus1Iden, SatnavGuidanceIden, SatnavReportIden, SatnavToMfdIden}

  /** A received packet as the bus driver delivers it: identifier and payload bytes. */
  datatype Packet = Packet(iden: int, data: seq<bv8>)
  {
    function DataLen(): nat
    {
      |data|
    }
  }

  /** Whether a packet is satellite navigation traffic: at least three payload bytes, and either a
      device report whose first byte is 0x07 or one of the four navigation-only frames. The first
      payload byte is read only after the length test. */
  function IsSatnavPacket(pkt: Packet): (satnav: bool)
    ensures satnav ==> pkt.DataLen() >= 3
    ensures satnav ==> pkt.iden in SatnavIdens
  {
    pkt.DataLen() >= 3
    && (
      || (pkt.iden == DeviceReport && pkt.data[0] == 0x07)
      || pkt.iden == SatnavStatus1Iden
      || pkt.iden == SatnavGuidanceIden
      || pkt.iden == SatnavReportIden
      || pkt.iden == SatnavToMfdIden)
  }

  /** A packet with fewer than three payload bytes is never navigation traffic. */
  lemma ShortPacketIsNotSatnav(pkt: Packet)
    requires pkt.DataLen() < 3
    ensures !IsSatnavPacket(pkt)
  {
  }

  /** A device report of three or more bytes is navigation traffic exactly when its first byte
      is 0x07. */
  lemma DeviceReportSatnavIffFirstByte(pkt: Packet)
    requires pkt.iden == DeviceReport && pkt.DataLen() >= 3
    ensures IsSatnavPacket(pkt) <==> pkt.data[0] == 0x07
  {
  }

  /** The four navigation-only frames are navigation traffic whatever their payload, once it has
      three bytes. */
  lemma NavigationOnlyFramesAreSatnav(pkt: Packet)
    requires pkt.iden in {SatnavStatus1Iden, SatnavGuidanceIden, SatnavReportIden, SatnavToMfdIden}
    requires pkt.DataLen() >= 3
    ensures IsSatnavPacket(pkt)
  {
  }

  /** The other navigation frames (sent to the navigation unit, its second and third status,
      guidance data, and the download frames) are not. */
  lemma OtherNavigationFramesAreNotSatnav(pkt: Packet)
    requires pkt.iden in
      {MfdToSatnavIden, SatnavStatus2Iden, SatnavStatus3Iden, SatnavGuidanceDataIden,
       SatnavDownloadingIden, SatnavDownloaded1Iden, SatnavDownloaded2Iden}
    ensures !IsSatnavPacket(pkt)
  {
  }

  /** The test classified by frame name: unknown identifiers are never navigation traffic, and
      of the named frames only the device report (with first byte 0x07) and the four
      navigation-only frames are. */
  lemma SatnavByFrame(pkt: Packet)
    ensures IsSatnavPacket(pkt) <==>
      && pkt.DataLen() >= 3
      && FrameOf(pkt.iden).Some?
      && (|| FrameOf(pkt.iden).value.OnlySatnav()
          || (FrameOf(pkt.iden).value == DeviceReportFrame && pkt.data[0] == 0x07))
  {
    IdenOfFrameOf(pkt.iden);
  }

  /** Only the identifier, the payload length and the first payload byte decide the test. */
  lemma OnlyFirstPayloadByteMatters(p: Packet, q: Packet)
    requires p.iden == q.iden && p.DataLen() >= 3 && q.DataLen() >= 3 && p.data[0] == q.data[0]
    ensures IsSatnavPacket(p) == IsSatnavPacket(q)
  {
  }
}
