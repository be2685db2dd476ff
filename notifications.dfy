/** The notification catalogue.
    Notifications arrive as a 16-byte bitmap of up to 128 flags: bit `bitIdx` of byte `byteIdx`
    is notification code `byteIdx * 8 + bitIdx`. For each of six languages a table of 128 entries
    gives the text of every code. Unused codes share one empty text; the eight codes of byte 9 have
    no entry at all (a null pointer), because that byte holds the index of the current message.
    A text ending in '!' is a warning, any other text is information. */
module Notifications {
  import opened Wrappers

  datatype Language = English | French | German | Spanish | Italian | Dutch

  /** Shape of the notification bitmap. */
  const BitmapBytes: nat := 16
  const BitsPerByte: nat := 8
  const SlotCount: nat := 128

  /** The byte of the bitmap that carries the index of the current message instead of flags. */
  const CurrentIndexByte: nat := 9

  /** The single empty text shared by every unused slot. */
  const EmptyStr: string := ""

  // Texts, one constant per code and language, as retrieved from the vehicle (typos included).
  // A constant defined as another constant is an alias: the slot reuses that text.

  // Byte 0: codes 0x00 to 0x07
  const Msg_0_0_Eng: string := "Tyre pressure too low!"
  const Msg_0_0_Fr: string := "Pression pneumatique(s) insuffisante!"
  const Msg_0_0_Ger: string := "Unzureichender Reifendruck!"
  const Msg_0_0_Spa: string := "Presión en neumáticos insuficiente!"
  const Msg_0_0_Ita: string := "Pressione pneumatico(ci) insufficiente!"
  const Msg_0_0_Dut: string := "Bandenspanning te laag!"
  const Msg_0_1: string := EmptyStr
  const Msg_0_2_Eng: string := "Automatic gearbox temperature too high!"
  const Msg_0_2_Fr: string := "Température boîte automatique trop élevée!"
  const Msg_0_2_Ger: string := "Temperatur im Automatikgetriebe zo hoch!"
  const Msg_0_2_Spa: string := "Temperatura muy alta de la caja automática!"
  const Msg_0_2_Ita: string := "Temperatura cambia automatica elevata!"
  const Msg_0_2_Dut: string := "Temperatuur in automatische versnellingsbak te hoog!"
  const Msg_0_3_Eng: string := "Brake fluid level low!"
  const Msg_0_3_Fr: string := "Niveau liquide de freins insuffisant!"
  const Msg_0_3_Ger: string := "Bremsflüssigkeitsstand zu niedrig!"
  const Msg_0_3_Spa: string := "Nivel liquido de frenos bajo!"
  const Msg_0_3_Ita: string := "Livello liquido freni insufficiente!"
  const Msg_0_3_Dut: string := "Peil van remvloeistof te laag!"
  const Msg_0_4_Eng: string := "Hydraulic suspension pressure defective!"
  const Msg_0_4_Fr: string := "Pression suspension hydraulique déficiente!"
  const Msg_0_4_Ger: string := "Mangelhafter Druck in der Hydraulikfederung!"
  const Msg_0_4_Spa: string := "Presión deficiente de suspensión hidráulica!"
  const Msg_0_4_Ita: string := "Pressione sospensione idraulica insufficiente!"
  const Msg_0_4_Dut: string := "Hydraulische drukophanging defekt!"
  const Msg_0_5_Eng: string := "Suspension defective!"
  const Msg_0_5_Fr: string := "Suspension défaillante!"
  const Msg_0_5_Ger: string := "Federung defekt!"
  const Msg_0_5_Spa: string := "Mala suspensión!"
  const Msg_0_5_Ita: string := "Sospensione in panne!"
  const Msg_0_5_Dut: string := "Ophanging defekt!"
  const Msg_0_6_Eng: string := "Engine oil temperature too high!"
  const Msg_0_6_Fr: string := "Température huile moteur trop élevée!"
  const Msg_0_6_Ger: string := "Temperatur Motoröl zu hoch!"
  const Msg_0_6_Spa: string := "Temperatura muy alta de aceite motor!"
  const Msg_0_6_Ita: string := "Temperatura olio motore troppo elevata!"
  const Msg_0_6_Dut: string := "Temperatuur motorolie te hoog!"
  const Msg_0_7_Eng: string := "Engine temperature too high!"
  const Msg_0_7_Fr: string := "Température moteur excessive!"
  const Msg_0_7_Ger: string := "Stark überhöhte Motortemperatur!"
  const Msg_0_7_Spa: string := "Temperatura excesiva de motor!"
  const Msg_0_7_Ita: string := "Temperatura motore eccessiva!"
  const Msg_0_7_Dut: string := "Te hoge motortemperatuur!"

  // Byte 1: codes 0x08 to 0x0F
  const Msg_1_0_Eng: string := "Clear diesel filter (FAP) URGENT"
  const Msg_1_0_Fr: string := "Cycle de nettoyage du filtre diesel (FAP) à faire rapidement"
  const Msg_1_0_Ger: string := "Die Reinigung des Diesel-Filters (FAP) ist dringend erforderlich"
  const Msg_1_0_Spa: string := "Hacer pronto la limpieza del filtro diesel (FAP)"
  const Msg_1_0_Ita: string := "Pulire il filtro diesel (FAP) al più presto"
  const Msg_1_0_Dut: string := "Dieselfilter snel schoonmaken"
  const Msg_1_1: string := EmptyStr
  const Msg_1_2_Eng: string := "Min level additive gasoil!"
  const Msg_1_2_Fr: string := "Niveau mini additif gasoil!"
  const Msg_1_2_Ger: string := "Stand der Krafstoff-Additif ist zu nierdrig!"
  const Msg_1_2_Spa: string := "Nivel gasoil al minimo!"
  const Msg_1_2_Ita: string := "Livello minimo gasolio!"
  const Msg_1_2_Dut: string := "Minimum niveau aanvullende vloeistof diesel!"
  const Msg_1_3_Eng: string := "Fuel cap open!"
  const Msg_1_3_Fr: string := "Accès réservoir carburant mal verrouillé!"
  const Msg_1_3_Ger: string := "Tankdeckel offen!"
  const Msg_1_3_Spa: string := "Tapa abierta!"
  const Msg_1_3_Ita: string := "Tappa aperto!"
  const Msg_1_3_Dut: string := "Tankdop open!"
  const Msg_1_4_Eng: string := "Puncture(s) detected!"
  const Msg_1_4_Fr: string := "Roue(s) crevée(s) détectée(s)!"
  const Msg_1_4_Ger: string := "Reifenpanne festgestellt!"
  const Msg_1_4_Spa: string := "Rueda(s) pinchada(s) detectada(s)!"
  const Msg_1_4_Ita: string := "Presenza di ruota(e) forata(e)!"
  const Msg_1_4_Dut: string := "Lekke band(en)!"
  const Msg_1_5_Eng: string := "Cooling circuit level too low!"
  const Msg_1_5_Fr: string := "Niveau circuit de refroidissement insuffisant!"
  const Msg_1_5_Ger: string := "Unzureichender Pegel des Kühlkreises!"
  const Msg_1_5_Spa: string := "Nivel bajo del circuito de refrigeración!"
  const Msg_1_5_Ita: string := "Livello circuito di raffreddamento insufficiente!"
  const Msg_1_5_Dut: string := "Koelwaterpeil te laag!"
  const Msg_1_6_Eng: string := "Oil pressure insufficient!"
  const Msg_1_6_Fr: string := "Pression huile moteur insuffisante!"
  const Msg_1_6_Ger: string := "Motoröldruck zu niedrig!"
  const Msg_1_6_Spa: string := "Presion aceite motor insuficiente!"
  const Msg_1_6_Ita: string := "Pressione olio motore insufficiente!"
  const Msg_1_6_Dut: string := "Motoroliedruk te laag!"
  const Msg_1_7_Eng: string := "Engine oil level too low!"
  const Msg_1_7_Fr: string := "Niveau d'huile moteur insuffisant!"
  const Msg_1_7_Ger: string := "Unzureichender Motorölstand!"
  const Msg_1_7_Spa: string := "Nivel insuficiente del aceite motor!"
  const Msg_1_7_Ita: string := "Livello olio motore insufficiente!"
  const Msg_1_7_Dut: string := "Motoroliepeil te laag!"

  // Byte 2: codes 0x10 to 0x17
  const Msg_2_0_Eng: string := "Engine antipollution system defective!"
  const Msg_2_0_Fr: string := "Système antipollution moteur déficient!"
  const Msg_2_0_Ger: string := "Umweltschutzsystem Motor schwach!"
  const Msg_2_0_Spa: string := "Sistema antipolución motor deficiente!"
  const Msg_2_0_Ita: string := "Sistema antinquinamento motore in panne!"
  const Msg_2_0_Dut: string := "Antivervuilingssysteem van motor defekt!"
  const Msg_2_1_Eng: string := "Brake pads worn!"
  const Msg_2_1_Fr: string := "Plaquettes de freins usées!"
  const Msg_2_1_Ger: string := "Bremsbeläge abgenutzt!"
  const Msg_2_1_Spa: string := "Plaquetas de freno gastadas!"
  const Msg_2_1_Ita: string := "Pastiglie dei freni usate!"
  const Msg_2_1_Dut: string := "Remblokken versleten!"
  const Msg_2_2_Eng: string := "Check Control OK"
  const Msg_2_2_Fr: string := Msg_2_2_Eng
  const Msg_2_2_Ger: string := Msg_2_2_Eng
  const Msg_2_2_Spa: string := Msg_2_2_Eng
  const Msg_2_2_Ita: string := Msg_2_2_Eng
  const Msg_2_2_Dut: string := Msg_2_2_Eng
  const Msg_2_3_Eng: string := "Automatic gearbox defective!"
  const Msg_2_3_Fr: string := "Boîte automatique défaillante!"
  const Msg_2_3_Ger: string := "Automatikgetriebe defekt!"
  const Msg_2_3_Spa: string := "Caja automática defectuosa!"
  const Msg_2_3_Ita: string := "Cambio automatico in panne!"
  const Msg_2_3_Dut: string := "Automatische versnellingsbak defekt!"
  const Msg_2_4_Eng: string := "ASR / ESP system defective!"
  const Msg_2_4_Fr: string := "Système ASR / ESP défaillant!"
  const Msg_2_4_Ger: string := "ASR / ESP System defekt!"
  const Msg_2_4_Spa: string := "Sistema ASR / ESP defectuoso!"
  const Msg_2_4_Ita: string := "Sistema ASR / ESP in panne!"
  const Msg_2_4_Dut: string := "ASR/ESP-systeem defekt!"
  const Msg_2_5_Eng: string := "ABS brake system defective!"
  const Msg_2_5_Fr: string := "Système de freinage ABS défaillant!"
  const Msg_2_5_Ger: string := "ABS Bremssystem defekt!"
  const Msg_2_5_Spa: string := "Sistema de freno ABS defectuoso!"
  const Msg_2_5_Ita: string := "Sistema di frenatura ABS in panne!"
  const Msg_2_5_Dut: string := "ABS-remsysteem defekt!"
  const Msg_2_6_Eng: string := "Suspension and power steering defective!"
  const Msg_2_6_Fr: string := "Suspension et direction assistée défaillantes!"
  const Msg_2_6_Ger: string := "Federung und Servolenkung defekt!"
  const Msg_2_6_Spa: string := "Suspensión y dirección asistida defectuosa!"
  const Msg_2_6_Ita: string := "Sospensione e servosterzo in panne!"
  const Msg_2_6_Dut: string := "Ophanging en stuurbekrachtiging defekt!"
  const Msg_2_7_Eng: string := "Brake system defective!"
  const Msg_2_7_Fr: string := "Système de freinage défaillant!"
  const Msg_2_7_Ger: string := "Bremssystem defekt!"
  const Msg_2_7_Spa: string := "Sistema de frenado defectuoso!"
  const Msg_2_7_Ita: string := "Sistema di frenatura in panne!"
  const Msg_2_7_Dut: string := "Remsysteem defekt!"

  // Byte 3: codes 0x18 to 0x1F
  const Msg_3_0_Eng: string := "Airbag defective!"
  const Msg_3_0_Fr: string := "Airbag défaillant!"
  const Msg_3_0_Ger: string := "Airbag defekt!"
  const Msg_3_0_Spa: string := "Airbag defectuoso!"
  const Msg_3_0_Ita: string := "Airbag in panne!"
  const Msg_3_0_Dut: string := "Airbag defekt!"
  const Msg_3_1_Eng: string := "Airbag defective!"
  const Msg_3_1_Fr: string := "Airbag défaillant!"
  const Msg_3_1_Ger: string := "Airbag defekt!"
  const Msg_3_1_Spa: string := "Airbag defectuoso!"
  const Msg_3_1_Ita: string := "Airbag in panne!"
  const Msg_3_1_Dut: string := "Airbag defekt!"
  const Msg_3_2: string := EmptyStr
  const Msg_3_3_Eng: string := "Engine temperature high!"
  const Msg_3_3_Fr: string := "Température moteur élevée!"
  const Msg_3_3_Ger: string := "Hohe Motortemperatur!"
  const Msg_3_3_Spa: string := "Temperatura alta del motor!"
  const Msg_3_3_Ita: string := "Temperatura motore elevata!"
  const Msg_3_3_Dut: string := "Motortemperatuur hoog!"
  const Msg_3_4: string := EmptyStr
  const Msg_3_5: string := EmptyStr
  const Msg_3_6: string := EmptyStr
  const Msg_3_7_Eng: string := "Water in Diesel fuel filter"
  const Msg_3_7_Fr: string := "Présence d'eau dans le filtre à gasoil"
  const Msg_3_7_Ger: string := "Wasser im Dieselfilter"
  const Msg_3_7_Spa: string := "Presencia de agua en el filtro de gasoil"
  const Msg_3_7_Ita: string := "Presenza d'acqua nel filtro del gasolio"
  const Msg_3_7_Dut: string := "Water aanwezig in dieselfilter"

  // Byte 4: codes 0x20 to 0x27
  const Msg_4_0: string := EmptyStr
  const Msg_4_1_Eng: string := "Automatic beam adjustment defective!"
  const Msg_4_1_Fr: string := "Réglage automatique des projecteurs défaillant!"
  const Msg_4_1_Ger: string := "Automatische Scheinwerfereinstellung defekt!"
  const Msg_4_1_Spa: string := "Ajuste automático de proyectores defectuosos!"
  const Msg_4_1_Ita: string := "Regolazione automatica dei fari in panne!"
  const Msg_4_1_Dut: string := "Automatische koplampinstelling defekt!"
  const Msg_4_2: string := EmptyStr
  const Msg_4_3: string := EmptyStr
  const Msg_4_4_Eng: string := "Service battery charge low!"
  const Msg_4_4_Fr: string := "Batterie de service faible!"
  const Msg_4_4_Ger: string := "Hilfsbatterie schwach!"
  const Msg_4_4_Spa: string := "Batería de servicio baja de nivel!"
  const Msg_4_4_Ita: string := "Batteria di servizio debole!"
  const Msg_4_4_Dut: string := "Extra accu zwak!"
  const Msg_4_5_Eng: string := "Battery charge low!"
  const Msg_4_5_Fr: string := "Charge batterie déficiente!"
  const Msg_4_5_Ger: string := "Mangelhafte Batterieladung!"
  const Msg_4_5_Spa: string := "Carga batería deficiente!"
  const Msg_4_5_Ita: string := "Carica della batteria insufficiente!"
  const Msg_4_5_Dut: string := "Acculading te laag!"
  const Msg_4_6_Eng: string := "Diesel antipollution system (FAP) defective!"
  const Msg_4_6_Fr: string := "Système antipollution diesel (FAP) défaillant!"
  const Msg_4_6_Ger: string := "Umweltschutzsystem Diesel (FAP) defekt!"
  const Msg_4_6_Spa: string := "Sistema antipolución gasoil (FAP) defectuoso!"
  const Msg_4_6_Ita: string := "Sistema antinquinamento diesel (FAP) in panne!"
  const Msg_4_6_Dut: string := "Antivervuilingssysteem dieselmotor (FAP) defekt!"
  const Msg_4_7_Eng: string := "Engine antipollution system inoperative!"
  const Msg_4_7_Fr: string := "Système antipollution moteur inopérant!"
  const Msg_4_7_Ger: string := "Umweltschutzsystem Motor wirkungslos!"
  const Msg_4_7_Spa: string := "Sistema antiploución motor fuera de funcionamiento!"
  const Msg_4_7_Ita: string := "Sistema antinquinamento motore inoperante!"
  const Msg_4_7_Dut: string := "Antivervuilingssysteem motor defekt!"

  // Byte 5: codes 0x28 to 0x2F
  const Msg_5_0_Eng: string := "Handbrake on!"
  const Msg_5_0_Fr: string := "Oubli frein à main!"
  const Msg_5_0_Ger: string := "Handbremse lösen!"
  const Msg_5_0_Spa: string := "Olvido freno parking!"
  const Msg_5_0_Ita: string := "Freno a mano ancora inserito!"
  const Msg_5_0_Dut: string := "Handrem !!"
  const Msg_5_1_Eng: string := "Safety belt not fastened!"
  const Msg_5_1_Fr: string := "Oubli ceinture de sécurité!"
  const Msg_5_1_Ger: string := "Sicherheitsgurt vergessen!"
  const Msg_5_1_Spa: string := "Cinturón de seguridad olvidado!"
  const Msg_5_1_Ita: string := "Cintura di sicurezza non agganciata!"
  const Msg_5_1_Dut: string := "Veiligheidsgordel !!"
  const Msg_5_2_Eng: string := "Passenger airbag neutralized"
  const Msg_5_2_Fr: string := "Airbag passager neutralisé"
  const Msg_5_2_Ger: string := "Beifahrerairbag deaktiviert"
  const Msg_5_2_Spa: string := "Airbag pasajero desactivado"
  const Msg_5_2_Ita: string := "Airbag passaggero neutralizzato"
  const Msg_5_2_Dut: string := "Passagiersairbag buiten werking"
  const Msg_5_3_Eng: string := "Windshield liquid level too low"
  const Msg_5_3_Fr: string := "Niveau liquide lave glace insuffisant"
  const Msg_5_3_Ger: string := "Unzureichender Wischwasserstand"
  const Msg_5_3_Spa: string := "Nivel bajo del líquido limpiaparabrisas"
  const Msg_5_3_Ita: string := "Livello del liquido tergicristalli insufficiente"
  const Msg_5_3_Dut: string := "Peil ruitenwisservloeistof te laag"
  const Msg_5_4_Eng: string := "Current speed too high"
  const Msg_5_4_Fr: string := "Vitesse actuelle excessive"
  const Msg_5_4_Ger: string := "Derzeitige Geschwindigkeit überhöht"
  const Msg_5_4_Spa: string := "Velocidad actual excesiva"
  const Msg_5_4_Ita: string := "Velocità attuale eccessiva"
  const Msg_5_4_Dut: string := "Huidige snelheid te hoog"
  const Msg_5_5_Eng: string := "Ignition key still inserted"
  const Msg_5_5_Fr: string := "Oubli clé de contact"
  const Msg_5_5_Ger: string := "Zündschlüssel vergessen"
  const Msg_5_5_Spa: string := "Llave de contacto olvidada"
  const Msg_5_5_Ita: string := "Chiave di contatto dimenticata"
  const Msg_5_5_Dut: string := "Contactsleutel ! "
  const Msg_5_6_Eng: string := "Lights not on"
  const Msg_5_6_Fr: string := "Oubli feux de position"
  const Msg_5_6_Ger: string := "Standlicht vergessen"
  const Msg_5_6_Spa: string := "Luces olvidadas"
  const Msg_5_6_Ita: string := "Fari accesi"
  const Msg_5_6_Dut: string := "Parkeerlichten ! "
  const Msg_5_7: string := EmptyStr

  // Byte 6: codes 0x30 to 0x37
  const Msg_6_0_Eng: string := "Impact sensor defective"
  const Msg_6_0_Fr: string := "Capteur de choc défaillant"
  const Msg_6_0_Ger: string := "Aufprallfühler defekt"
  const Msg_6_0_Spa: string := "Detector de choque defectuoso"
  const Msg_6_0_Ita: string := "Sensore die choc in panne"
  const Msg_6_0_Dut: string := "Schoksensor defekt"
  const Msg_6_1: string := EmptyStr
  const Msg_6_2_Eng: string := "Tyre pressure sensor battery low"
  const Msg_6_2_Fr: string := "Pile capteur pression pneumatique usagée"
  const Msg_6_2_Ger: string := "Batterie des Reifendruckfühlers verbraucht"
  const Msg_6_2_Spa: string := "Pila del captador de presión neumática gastada"
  const Msg_6_2_Ita: string := "Pila del sensore di pressione del pneumatico scarica"
  const Msg_6_2_Dut: string := "Batterij van bandendruk-sensor leeg"
  const Msg_6_3_Eng: string := "Plip remote control battery low"
  const Msg_6_3_Fr: string := "Pile télécommande plip usagée"
  const Msg_6_3_Ger: string := "Batterie der Fernbedienung verbraucht"
  const Msg_6_3_Spa: string := "Pila del control remoto gastada"
  const Msg_6_3_Ita: string := "Pila del telecomando porte scarica"
  const Msg_6_3_Dut: string := "Batterij van plip-afstandsbediending leeg"
  const Msg_6_4: string := EmptyStr
  const Msg_6_5_Eng: string := "Place automatic gearbox in P position"
  const Msg_6_5_Fr: string := "Placer boîte automatique en position P"
  const Msg_6_5_Ger: string := "Automatikgetriebe auf P stellen"
  const Msg_6_5_Spa: string := "Poner caja automática en posición P"
  const Msg_6_5_Ita: string := "Mettere il cambio automatica in posizione P"
  const Msg_6_5_Dut: string := "Automatische versnelling in P-stand"
  const Msg_6_6_Eng: string := "Testing stop lamps : brake gently"
  const Msg_6_6_Fr: string := "Test lampes stop : freinez légèrement"
  const Msg_6_6_Ger: string := "Test der Bremslichter: leicht bremsen"
  const Msg_6_6_Spa: string := "Test de luces de parada: frenar levemente"
  const Msg_6_6_Ita: string := "Test delle luci de stop : frenare leggermente"
  const Msg_6_6_Dut: string := "Test remlichten : druk licht op de rem"
  const Msg_6_7_Eng: string := "Fuel level low!"
  const Msg_6_7_Fr: string := "Niveau carburant faible!"
  const Msg_6_7_Ger: string := "Kraftstoffstand niedrig!"
  const Msg_6_7_Spa: string := "Nivel carburante bajo!"
  const Msg_6_7_Ita: string := "Livello carburante basso!"
  const Msg_6_7_Dut: string := "Brandstofpeil laag!"

  // Byte 7: codes 0x38 to 0x3F
  const Msg_7_0_Eng: string := "Automatic headlight activation system disabled"
  const Msg_7_0_Fr: string := "Allumage automatique des projecteurs désactivé"
  const Msg_7_0_Ger: string := "Automatisches Einschalten der Scheinwerfer deaktiviert"
  const Msg_7_0_Spa: string := "Encendido automático de proyectores desactivado"
  const Msg_7_0_Ita: string := "Accensione automatica dei fari disattivata"
  const Msg_7_0_Dut: string := "Automatische koplampschakeling uit"
  const Msg_7_1_Eng: string := "Turn-headlight defective!"
  const Msg_7_1_Fr: string := "Défaut codes virages!"
  const Msg_7_1_Ger: string := "Neben-Abblendlicht defekt!"
  const Msg_7_1_Spa: string := "Defecto códigos giros!"
  const Msg_7_1_Ita: string := "Difetto antiabbagliante per curva!"
  const Msg_7_1_Dut: string := "Bochtenverlichting defekt!"
  const Msg_7_2_Eng: string := "Turn-headlight disable"
  const Msg_7_2_Fr: string := "Codes virages inactifs"
  const Msg_7_2_Ger: string := "Neben-Abblendlicht deaktiviert"
  const Msg_7_2_Spa: string := "Códigos giros inactivos"
  const Msg_7_2_Ita: string := "Antiabbagliante per curva inattivo"
  const Msg_7_2_Dut: string := "Bochtenverlichting buiten werking"
  const Msg_7_3_Eng: string := "Turn-headlight enable"
  const Msg_7_3_Fr: string := "Codes virages actifs"
  const Msg_7_3_Ger: string := "Neben-Abblendlicht aktiviert"
  const Msg_7_3_Spa: string := "Códigos giros activos"
  const Msg_7_3_Ita: string := "Antiabbagliante per curva attivo"
  const Msg_7_3_Dut: string := "Bochtenverlichting aan"
  const Msg_7_4: string := EmptyStr
  const Msg_7_5_Eng: string := "7 tyre pressure sensors missing!"
  const Msg_7_5_Fr: string := "7 capteurs pression pneumatique manquants!"
  const Msg_7_5_Ger: string := "7 Reifendruckfühler fehlen!"
  const Msg_7_5_Spa: string := "Faltan 7 captadores de presión neumática!"
  const Msg_7_5_Ita: string := "Mancano 7 sensori di pressione pneumatici!"
  const Msg_7_5_Dut: string := "Er ontbreken 7 bandendruk-sensors!"
  const Msg_7_6_Eng: string := Msg_7_5_Eng
  const Msg_7_6_Fr: string := Msg_7_5_Fr
  const Msg_7_6_Ger: string := Msg_7_5_Ger
  const Msg_7_6_Spa: string := Msg_7_5_Spa
  const Msg_7_6_Ita: string := Msg_7_5_Ita
  const Msg_7_6_Dut: string := Msg_7_5_Dut
  const Msg_7_7_Eng: string := Msg_7_5_Eng
  const Msg_7_7_Fr: string := Msg_7_5_Fr
  const Msg_7_7_Ger: string := Msg_7_5_Ger
  const Msg_7_7_Spa: string := Msg_7_5_Spa
  const Msg_7_7_Ita: string := Msg_7_5_Ita
  const Msg_7_7_Dut: string := Msg_7_5_Dut

  // Byte 8: codes 0x40 to 0x47
  const Msg_8_0_Eng: string := "Doors locked"
  const Msg_8_0_Fr: string := "Portes verrouillées"
  const Msg_8_0_Ger: string := "Türen verriegelt"
  const Msg_8_0_Spa: string := "Puertas condenadas"
  const Msg_8_0_Ita: string := "Porte bloccate"
  const Msg_8_0_Dut: string := "Deuren vergrendeld"
  const Msg_8_1_Eng: string := "ASR / ESP system disabled"
  const Msg_8_1_Fr: string := "Système ASR / ESP désactivé"
  const Msg_8_1_Ger: string := "ASR / ESP System deaktiviert"
  const Msg_8_1_Spa: string := "Sistema ASR / ESP fuera de servicio"
  const Msg_8_1_Ita: string := "Sistema ASR / ESP disattivato"
  const Msg_8_1_Dut: string := "ASR/ESP-systeem uit"
  const Msg_8_2_Eng: string := "Child safety lock enabled"
  const Msg_8_2_Fr: string := "Sécurité enfant activée"
  const Msg_8_2_Ger: string := "Kindersicherung aktiviert"
  const Msg_8_2_Spa: string := "Seguridad niños activa"
  const Msg_8_2_Ita: string := "Sicurezza bambini attivata"
  const Msg_8_2_Dut: string := "Kindervergrendeling aan"
  const Msg_8_3_Eng: string := "Door self locking system enabled"
  const Msg_8_3_Fr: string := "Autoverrouillage des portes activé"
  const Msg_8_3_Ger: string := "Selbstverriegelung der Türen aktiviert"
  const Msg_8_3_Spa: string := "Autobloqueo de puertas activo"
  const Msg_8_3_Ita: string := "Auto bloccaggio delle porte attivato"
  const Msg_8_3_Dut: string := "Automatische deurvergrendling aan"
  const Msg_8_4_Eng: string := "Automatic headlight activation system enabled"
  const Msg_8_4_Fr: string := "Allumage automatique des projecteurs activé"
  const Msg_8_4_Ger: string := "Automatisches Einschalten der Scheinwerfer aktiviert"
  const Msg_8_4_Spa: string := "Encendido automático de proyectores activo"
  const Msg_8_4_Ita: string := "Accensione automatica dei fari attivata"
  const Msg_8_4_Dut: string := "Automatische koplampschakeling aan"
  const Msg_8_5_Eng: string := "Automatic wiper system enabled"
  const Msg_8_5_Fr: string := "Essuie-vitre automatique activé"
  const Msg_8_5_Ger: string := "Automatischer Scheibenwischer aktiviert"
  const Msg_8_5_Spa: string := "Limpiaparabrisas activo"
  const Msg_8_5_Ita: string := "Tergicristalli automatici attivati"
  const Msg_8_5_Dut: string := "Automatische ruitenwisser aan"
  const Msg_8_6_Eng: string := "Electronic anti-theft system defective"
  const Msg_8_6_Fr: string := "Antivol électronique défaillant"
  const Msg_8_6_Ger: string := "Elektronische Diebstahlsicherung defekt"
  const Msg_8_6_Spa: string := "Antirrobo electronico defectuoso"
  const Msg_8_6_Ita: string := "Antifurto elettronico in panne"
  const Msg_8_6_Dut: string := "Elektronische diefstalbeveiliging defekt"
  const Msg_8_7_Eng: string := "Sport suspension mode enabled"
  const Msg_8_7_Fr: string := "Mode suspension sport activé"
  const Msg_8_7_Ger: string := "Sportfederung aktiviert"
  const Msg_8_7_Spa: string := "Modo suspensión sport activo"
  const Msg_8_7_Ita: string := "Modo sospensione sport attivato"
  const Msg_8_7_Dut: string := "Sportief ophangingssysteem aan"

  // Byte 9 carries the index of the current message and has no texts.

  // Byte 10: codes 0x50 to 0x57
  const Msg_10_0: string := EmptyStr
  const Msg_10_1: string := EmptyStr
  const Msg_10_2: string := EmptyStr
  const Msg_10_3: string := EmptyStr
  const Msg_10_4: string := EmptyStr
  const Msg_10_5: string := EmptyStr
  const Msg_10_6: string := EmptyStr
  const Msg_10_7: string := EmptyStr

  // Byte 11: codes 0x58 to 0x5F
  const Msg_11_0: string := EmptyStr
  const Msg_11_1: string := EmptyStr
  const Msg_11_2: string := EmptyStr
  const Msg_11_3: string := EmptyStr
  const Msg_11_4: string := EmptyStr
  const Msg_11_5: string := EmptyStr
  const Msg_11_6: string := EmptyStr
  const Msg_11_7: string := EmptyStr

  // Byte 12: codes 0x60 to 0x67
  const Msg_12_0: string := EmptyStr
  const Msg_12_1: string := EmptyStr
  const Msg_12_2: string := EmptyStr
  const Msg_12_3: string := EmptyStr
  const Msg_12_4: string := EmptyStr
  const Msg_12_5: string := EmptyStr
  const Msg_12_6: string := EmptyStr
  const Msg_12_7: string := EmptyStr

  // Byte 13: codes 0x68 to 0x6F
  const Msg_13_0: string := EmptyStr
  const Msg_13_1: string := EmptyStr
  const Msg_13_2: string := EmptyStr
  const Msg_13_3: string := EmptyStr
  const Msg_13_4: string := EmptyStr
  const Msg_13_5: string := EmptyStr
  const Msg_13_6: string := EmptyStr
  const Msg_13_7: string := EmptyStr

  // Byte 14: codes 0x70 to 0x77
  const Msg_14_0: string := EmptyStr
  const Msg_14_1: string := EmptyStr
  const Msg_14_2: string := EmptyStr
  const Msg_14_3: string := EmptyStr
  const Msg_14_4: string := EmptyStr
  const Msg_14_5: string := EmptyStr
  const Msg_14_6: string := EmptyStr
  const Msg_14_7: string := EmptyStr

  // Byte 15: codes 0x78 to 0x7F
  const Msg_15_0: string := EmptyStr
  const Msg_15_1: string := EmptyStr
  const Msg_15_2: string := EmptyStr
  const Msg_15_3: string := EmptyStr
  const Msg_15_4: string := EmptyStr
  const Msg_15_5: string := EmptyStr
  const Msg_15_6: string := EmptyStr
  const Msg_15_7: string := EmptyStr

  // The six tables, written as their 16 initializer lines: line `b` holds the 8 slots of byte `b`.
  // `None` is a null pointer (byte 9), `Some(EmptyStr)` an unused slot.

  const MsgRowsEng: seq<seq<Option<string>>> := [
    [Some(Msg_0_0_Eng), Some(Msg_0_1), Some(Msg_0_2_Eng), Some(Msg_0_3_Eng), Some(Msg_0_4_Eng), Some(Msg_0_5_Eng), Some(Msg_0_6_Eng), Some(Msg_0_7_Eng)],
    [Some(Msg_1_0_Eng), Some(Msg_1_1), Some(Msg_1_2_Eng), Some(Msg_1_3_Eng), Some(Msg_1_4_Eng), Some(Msg_1_5_Eng), Some(Msg_1_6_Eng), Some(Msg_1_7_Eng)],
    [Some(Msg_2_0_Eng), Some(Msg_2_1_Eng), Some(Msg_2_2_Eng), Some(Msg_2_3_Eng), Some(Msg_2_4_Eng), Some(Msg_2_5_Eng), Some(Msg_2_6_Eng), Some(Msg_2_7_Eng)],
    [Some(Msg_3_0_Eng), Some(Msg_3_1_Eng), Some(Msg_3_2), Some(Msg_3_3_Eng), Some(Msg_3_4), Some(Msg_3_5), Some(Msg_3_6), Some(Msg_3_7_Eng)],
    [Some(Msg_4_0), Some(Msg_4_1_Eng), Some(Msg_4_2), Some(Msg_4_3), Some(Msg_4_4_Eng), Some(Msg_4_5_Eng), Some(Msg_4_6_Eng), Some(Msg_4_7_Eng)],
    [Some(Msg_5_0_Eng), Some(Msg_5_1_Eng), Some(Msg_5_2_Eng), Some(Msg_5_3_Eng), Some(Msg_5_4_Eng), Some(Msg_5_5_Eng), Some(Msg_5_6_Eng), Some(Msg_5_7)],
    [Some(Msg_6_0_Eng), Some(Msg_6_1), Some(Msg_6_2_Eng), Some(Msg_6_3_Eng), Some(Msg_6_4), Some(Msg_6_5_Eng), Some(Msg_6_6_Eng), Some(Msg_6_7_Eng)],
    [Some(Msg_7_0_Eng), Some(Msg_7_1_Eng), Some(Msg_7_2_Eng), Some(Msg_7_3_Eng), Some(Msg_7_4), Some(Msg_7_5_Eng), Some(Msg_7_6_Eng), Some(Msg_7_7_Eng)],
    [Some(Msg_8_0_Eng), Some(Msg_8_1_Eng), Some(Msg_8_2_Eng), Some(Msg_8_3_Eng), Some(Msg_8_4_Eng), Some(Msg_8_5_Eng), Some(Msg_8_6_Eng), Some(Msg_8_7_Eng)],
    [None, None, None, None, None, None, None, None],
    [Some(Msg_10_0), Some(Msg_10_1), Some(Msg_10_2), Some(Msg_10_3), Some(Msg_10_4), Some(Msg_10_5), Some(Msg_10_6), Some(Msg_10_7)],
    [Some(Msg_11_0), Some(Msg_11_1), Some(Msg_11_2), Some(Msg_11_3), Some(Msg_11_4), Some(Msg_11_5), Some(Msg_11_6), Some(Msg_11_7)],
    [Some(Msg_12_0), Some(Msg_12_1), Some(Msg_12_2), Some(Msg_12_3), Some(Msg_12_4), Some(Msg_12_5), Some(Msg_12_6), Some(Msg_12_7)],
    [Some(Msg_13_0), Some(Msg_13_1), Some(Msg_13_2), Some(Msg_13_3), Some(Msg_13_4), Some(Msg_13_5), Some(Msg_13_6), Some(Msg_13_7)],
    [Some(Msg_14_0), Some(Msg_14_1), Some(Msg_14_2), Some(Msg_14_3), Some(Msg_14_4), Some(Msg_14_5), Some(Msg_14_6), Some(Msg_14_7)],
    [Some(Msg_15_0), Some(Msg_15_1), Some(Msg_15_2), Some(Msg_15_3), Some(Msg_15_4), Some(Msg_15_5), Some(Msg_15_6), Some(Msg_15_7)]
  ]

  const MsgRowsFr: seq<seq<Option<string>>> := [
    [Some(Msg_0_0_Fr), Some(Msg_0_1), Some(Msg_0_2_Fr), Some(Msg_0_3_Fr), Some(Msg_0_4_Fr), Some(Msg_0_5_Fr), Some(Msg_0_6_Fr), Some(Msg_0_7_Fr)],
    [Some(Msg_1_0_Fr), Some(Msg_1_1), Some(Msg_1_2_Fr), Some(Msg_1_3_Fr), Some(Msg_1_4_Fr), Some(Msg_1_5_Fr), Some(Msg_1_6_Fr), Some(Msg_1_7_Fr)],
    [Some(Msg_2_0_Fr), Some(Msg_2_1_Fr), Some(Msg_2_2_Fr), Some(Msg_2_3_Fr), Some(Msg_2_4_Fr), Some(Msg_2_5_Fr), Some(Msg_2_6_Fr), Some(Msg_2_7_Fr)],
    [Some(Msg_3_0_Fr), Some(Msg_3_1_Fr), Some(Msg_3_2), Some(Msg_3_3_Fr), Some(Msg_3_4), Some(Msg_3_5), Some(Msg_3_6), Some(Msg_3_7_Fr)],
    [Some(Msg_4_0), Some(Msg_4_1_Fr), Some(Msg_4_2), Some(Msg_4_3), Some(Msg_4_4_Fr), Some(Msg_4_5_Fr), Some(Msg_4_6_Fr), Some(Msg_4_7_Fr)],
    [Some(Msg_5_0_Fr), Some(Msg_5_1_Fr), Some(Msg_5_2_Fr), Some(Msg_5_3_Fr), Some(Msg_5_4_Fr), Some(Msg_5_5_Fr), Some(Msg_5_6_Fr), Some(Msg_5_7)],
    [Some(Msg_6_0_Fr), Some(Msg_6_1), Some(Msg_6_2_Fr), Some(Msg_6_3_Fr), Some(Msg_6_4), Some(Msg_6_5_Fr), Some(Msg_6_6_Fr), Some(Msg_6_7_Fr)],
    [Some(Msg_7_0_Fr), Some(Msg_7_1_Fr), Some(Msg_7_2_Fr), Some(Msg_7_3_Fr), Some(Msg_7_4), Some(Msg_7_5_Fr), Some(Msg_7_6_Fr), Some(Msg_7_7_Fr)],
    [Some(Msg_8_0_Fr), Some(Msg_8_1_Fr), Some(Msg_8_2_Fr), Some(Msg_8_3_Fr), Some(Msg_8_4_Fr), Some(Msg_8_5_Fr), Some(Msg_8_6_Fr), Some(Msg_8_7_Fr)],
    [None, None, None, None, None, None, None, None],
    [Some(Msg_10_0), Some(Msg_10_1), Some(Msg_10_2), Some(Msg_10_3), Some(Msg_10_4), Some(Msg_10_5), Some(Msg_10_6), Some(Msg_10_7)],
    [Some(Msg_11_0), Some(Msg_11_1), Some(Msg_11_2), Some(Msg_11_3), Some(Msg_11_4), Some(Msg_11_5), Some(Msg_11_6), Some(Msg_11_7)],
    [Some(Msg_12_0), Some(Msg_12_1), Some(Msg_12_2), Some(Msg_12_3), Some(Msg_12_4), Some(Msg_12_5), Some(Msg_12_6), Some(Msg_12_7)],
    [Some(Msg_13_0), Some(Msg_13_1), Some(Msg_13_2), Some(Msg_13_3), Some(Msg_13_4), Some(Msg_13_5), Some(Msg_13_6), Some(Msg_13_7)],
    [Some(Msg_14_0), Some(Msg_14_1), Some(Msg_14_2), Some(Msg_14_3), Some(Msg_14_4), Some(Msg_14_5), Some(Msg_14_6), Some(Msg_14_7)],
    [Some(Msg_15_0), Some(Msg_15_1), Some(Msg_15_2), Some(Msg_15_3), Some(Msg_15_4), Some(Msg_15_5), Some(Msg_15_6), Some(Msg_15_7)]
  ]

  const MsgRowsGer: seq<seq<Option<string>>> := [
    [Some(Msg_0_0_Ger), Some(Msg_0_1), Some(Msg_0_2_Ger), Some(Msg_0_3_Ger), Some(Msg_0_4_Ger), Some(Msg_0_5_Ger), Some(Msg_0_6_Ger), Some(Msg_0_7_Ger)],
    [Some(Msg_1_0_Ger), Some(Msg_1_1), Some(Msg_1_2_Ger), Some(Msg_1_3_Ger), Some(Msg_1_4_Ger), Some(Msg_1_5_Ger), Some(Msg_1_6_Ger), Some(Msg_1_7_Ger)],
    [Some(Msg_2_0_Ger), Some(Msg_2_1_Ger), Some(Msg_2_2_Ger), Some(Msg_2_3_Ger), Some(Msg_2_4_Ger), Some(Msg_2_5_Ger), Some(Msg_2_6_Ger), Some(Msg_2_7_Ger)],
    [Some(Msg_3_0_Ger), Some(Msg_3_1_Ger), Some(Msg_3_2), Some(Msg_3_3_Ger), Some(Msg_3_4), Some(Msg_3_5), Some(Msg_3_6), Some(Msg_3_7_Ger)],
    [Some(Msg_4_0), Some(Msg_4_1_Ger), Some(Msg_4_2), Some(Msg_4_3), Some(Msg_4_4_Ger), Some(Msg_4_5_Ger), Some(Msg_4_6_Ger), Some(Msg_4_7_Ger)],
    [Some(Msg_5_0_Ger), Some(Msg_5_1_Ger), Some(Msg_5_2_Ger), Some(Msg_5_3_Ger), Some(Msg_5_4_Ger), Some(Msg_5_5_Ger), Some(Msg_5_6_Ger), Some(Msg_5_7)],
    [Some(Msg_6_0_Ger), Some(Msg_6_1), Some(Msg_6_2_Ger), Some(Msg_6_3_Ger), Some(Msg_6_4), Some(Msg_6_5_Ger), Some(Msg_6_6_Ger), Some(Msg_6_7_Ger)],
    [Some(Msg_7_0_Ger), Some(Msg_7_1_Ger), Some(Msg_7_2_Ger), Some(Msg_7_3_Ger), Some(Msg_7_4), Some(Msg_7_5_Ger), Some(Msg_7_6_Ger), Some(Msg_7_7_Ger)],
    [Some(Msg_8_0_Ger), Some(Msg_8_1_Ger), Some(Msg_8_2_Ger), Some(Msg_8_3_Ger), Some(Msg_8_4_Ger), Some(Msg_8_5_Ger), Some(Msg_8_6_Ger), Some(Msg_8_7_Ger)],
    [None, None, None, None, None, None, None, None],
    [Some(Msg_10_0), Some(Msg_10_1), Some(Msg_10_2), Some(Msg_10_3), Some(Msg_10_4), Some(Msg_10_5), Some(Msg_10_6), Some(Msg_10_7)],
    [Some(Msg_11_0), Some(Msg_11_1), Some(Msg_11_2), Some(Msg_11_3), Some(Msg_11_4), Some(Msg_11_5), Some(Msg_11_6), Some(Msg_11_7)],
    [Some(Msg_12_0), Some(Msg_12_1), Some(Msg_12_2), Some(Msg_12_3), Some(Msg_12_4), Some(Msg_12_5), Some(Msg_12_6), Some(Msg_12_7)],
    [Some(Msg_13_0), Some(Msg_13_1), Some(Msg_13_2), Some(Msg_13_3), Some(Msg_13_4), Some(Msg_13_5), Some(Msg_13_6), Some(Msg_13_7)],
    [Some(Msg_14_0), Some(Msg_14_1), Some(Msg_14_2), Some(Msg_14_3), Some(Msg_14_4), Some(Msg_14_5), Some(Msg_14_6), Some(Msg_14_7)],
    [Some(Msg_15_0), Some(Msg_15_1), Some(Msg_15_2), Some(Msg_15_3), Some(Msg_15_4), Some(Msg_15_5), Some(Msg_15_6), Some(Msg_15_7)]
  ]

  const MsgRowsSpa: seq<seq<Option<string>>> := [
    [Some(Msg_0_0_Spa), Some(Msg_0_1), Some(Msg_0_2_Spa), Some(Msg_0_3_Spa), Some(Msg_0_4_Spa), Some(Msg_0_5_Spa), Some(Msg_0_6_Spa), Some(Msg_0_7_Spa)],
    [Some(Msg_1_0_Spa), Some(Msg_1_1), Some(Msg_1_2_Spa), Some(Msg_1_3_Spa), Some(Msg_1_4_Spa), Some(Msg_1_5_Spa), Some(Msg_1_6_Spa), Some(Msg_1_7_Spa)],
    [Some(Msg_2_0_Spa), Some(Msg_2_1_Spa), Some(Msg_2_2_Spa), Some(Msg_2_3_Spa), Some(Msg_2_4_Spa), Some(Msg_2_5_Spa), Some(Msg_2_6_Spa), Some(Msg_2_7_Spa)],
    [Some(Msg_3_0_Spa), Some(Msg_3_1_Spa), Some(Msg_3_2), Some(Msg_3_3_Spa), Some(Msg_3_4), Some(Msg_3_5), Some(Msg_3_6), Some(Msg_3_7_Spa)],
    [Some(Msg_4_0), Some(Msg_4_1_Spa), Some(Msg_4_2), Some(Msg_4_3), Some(Msg_4_4_Spa), Some(Msg_4_5_Spa), Some(Msg_4_6_Spa), Some(Msg_4_7_Spa)],
    [Some(Msg_5_0_Spa), Some(Msg_5_1_Spa), Some(Msg_5_2_Spa), Some(Msg_5_3_Spa), Some(Msg_5_4_Spa), Some(Msg_5_5_Spa), Some(Msg_5_6_Spa), Some(Msg_5_7)],
    [Some(Msg_6_0_Spa), Some(Msg_6_1), Some(Msg_6_2_Spa), Some(Msg_6_3_Spa), Some(Msg_6_4), Some(Msg_6_5_Spa), Some(Msg_6_6_Spa), Some(Msg_6_7_Spa)],
    [Some(Msg_7_0_Spa), Some(Msg_7_1_Spa), Some(Msg_7_2_Spa), Some(Msg_7_3_Spa), Some(Msg_7_4), Some(Msg_7_5_Spa), Some(Msg_7_6_Spa), Some(Msg_7_7_Spa)],
    [Some(Msg_8_0_Spa), Some(Msg_8_1_Spa), Some(Msg_8_2_Spa), Some(Msg_8_3_Spa), Some(Msg_8_4_Spa), Some(Msg_8_5_Spa), Some(Msg_8_6_Spa), Some(Msg_8_7_Spa)],
    [None, None, None, None, None, None, None, None],
    [Some(Msg_10_0), Some(Msg_10_1), Some(Msg_10_2), Some(Msg_10_3), Some(Msg_10_4), Some(Msg_10_5), Some(Msg_10_6), Some(Msg_10_7)],
    [Some(Msg_11_0), Some(Msg_11_1), Some(Msg_11_2), Some(Msg_11_3), Some(Msg_11_4), Some(Msg_11_5), Some(Msg_11_6), Some(Msg_11_7)],
    [Some(Msg_12_0), Some(Msg_12_1), Some(Msg_12_2), Some(Msg_12_3), Some(Msg_12_4), Some(Msg_12_5), Some(Msg_12_6), Some(Msg_12_7)],
    [Some(Msg_13_0), Some(Msg_13_1), Some(Msg_13_2), Some(Msg_13_3), Some(Msg_13_4), Some(Msg_13_5), Some(Msg_13_6), Some(Msg_13_7)],
    [Some(Msg_14_0), Some(Msg_14_1), Some(Msg_14_2), Some(Msg_14_3), Some(Msg_14_4), Some(Msg_14_5), Some(Msg_14_6), Some(Msg_14_7)],
    [Some(Msg_15_0), Some(Msg_15_1), Some(Msg_15_2), Some(Msg_15_3), Some(Msg_15_4), Some(Msg_15_5), Some(Msg_15_6), Some(Msg_15_7)]
  ]

  const MsgRowsIta: seq<seq<Option<string>>> := [
    [Some(Msg_0_0_Ita), Some(Msg_0_1), Some(Msg_0_2_Ita), Some(Msg_0_3_Ita), Some(Msg_0_4_Ita), Some(Msg_0_5_Ita), Some(Msg_0_6_Ita), Some(Msg_0_7_Ita)],
    [Some(Msg_1_0_Ita), Some(Msg_1_1), Some(Msg_1_2_Ita), Some(Msg_1_3_Ita), Some(Msg_1_4_Ita), Some(Msg_1_5_Ita), Some(Msg_1_6_Ita), Some(Msg_1_7_Ita)],
    [Some(Msg_2_0_Ita), Some(Msg_2_1_Ita), Some(Msg_2_2_Ita), Some(Msg_2_3_Ita), Some(Msg_2_4_Ita), Some(Msg_2_5_Ita), Some(Msg_2_6_Ita), Some(Msg_2_7_Ita)],
    [Some(Msg_3_0_Ita), Some(Msg_3_1_Ita), Some(Msg_3_2), Some(Msg_3_3_Ita), Some(Msg_3_4), Some(Msg_3_5), Some(Msg_3_6), Some(Msg_3_7_Ita)],
    [Some(Msg_4_0), Some(Msg_4_1_Ita), Some(Msg_4_2), Some(Msg_4_3), Some(Msg_4_4_Ita), Some(Msg_4_5_Ita), Some(Msg_4_6_Ita), Some(Msg_4_7_Ita)],
    [Some(Msg_5_0_Ita), Some(Msg_5_1_Ita), Some(Msg_5_2_Ita), Some(Msg_5_3_Ita), Some(Msg_5_4_Ita), Some(Msg_5_5_Ita), Some(Msg_5_6_Ita), Some(Msg_5_7)],
    [Some(Msg_6_0_Ita), Some(Msg_6_1), Some(Msg_6_2_Ita), Some(Msg_6_3_Ita), Some(Msg_6_4), Some(Msg_6_5_Ita), Some(Msg_6_6_Ita), Some(Msg_6_7_Ita)],
    [Some(Msg_7_0_Ita), Some(Msg_7_1_Ita), Some(Msg_7_2_Ita), Some(Msg_7_3_Ita), Some(Msg_7_4), Some(Msg_7_5_Ita), Some(Msg_7_6_Ita), Some(Msg_7_7_Ita)],
    [Some(Msg_8_0_Ita), Some(Msg_8_1_Ita), Some(Msg_8_2_Ita), Some(Msg_8_3_Ita), Some(Msg_8_4_Ita), Some(Msg_8_5_Ita), Some(Msg_8_6_Ita), Some(Msg_8_7_Ita)],
    [None, None, None, None, None, None, None, None],
    [Some(Msg_10_0), Some(Msg_10_1), Some(Msg_10_2), Some(Msg_10_3), Some(Msg_10_4), Some(Msg_10_5), Some(Msg_10_6), Some(Msg_10_7)],
    [Some(Msg_11_0), Some(Msg_11_1), Some(Msg_11_2), Some(Msg_11_3), Some(Msg_11_4), Some(Msg_11_5), Some(Msg_11_6), Some(Msg_11_7)],
    [Some(Msg_12_0), Some(Msg_12_1), Some(Msg_12_2), Some(Msg_12_3), Some(Msg_12_4), Some(Msg_12_5), Some(Msg_12_6), Some(Msg_12_7)],
    [Some(Msg_13_0), Some(Msg_13_1), Some(Msg_13_2), Some(Msg_13_3), Some(Msg_13_4), Some(Msg_13_5), Some(Msg_13_6), Some(Msg_13_7)],
    [Some(Msg_14_0), Some(Msg_14_1), Some(Msg_14_2), Some(Msg_14_3), Some(Msg_14_4), Some(Msg_14_5), Some(Msg_14_6), Some(Msg_14_7)],
    [Some(Msg_15_0), Some(Msg_15_1), Some(Msg_15_2), Some(Msg_15_3), Some(Msg_15_4), Some(Msg_15_5), Some(Msg_15_6), Some(Msg_15_7)]
  ]

  const MsgRowsDut: seq<seq<Option<string>>> := [
    [Some(Msg_0_0_Dut), Some(Msg_0_1), Some(Msg_0_2_Dut), Some(Msg_0_3_Dut), Some(Msg_0_4_Dut), Some(Msg_0_5_Dut), Some(Msg_0_6_Dut), Some(Msg_0_7_Dut)],
    [Some(Msg_1_0_Dut), Some(Msg_1_1), Some(Msg_1_2_Dut), Some(Msg_1_3_Dut), Some(Msg_1_4_Dut), Some(Msg_1_5_Dut), Some(Msg_1_6_Dut), Some(Msg_1_7_Dut)],
    [Some(Msg_2_0_Dut), Some(Msg_2_1_Dut), Some(Msg_2_2_Dut), Some(Msg_2_3_Dut), Some(Msg_2_4_Dut), Some(Msg_2_5_Dut), Some(Msg_2_6_Dut), Some(Msg_2_7_Dut)],
    [Some(Msg_3_0_Dut), Some(Msg_3_1_Dut), Some(Msg_3_2), Some(Msg_3_3_Dut), Some(Msg_3_4), Some(Msg_3_5), Some(Msg_3_6), Some(Msg_3_7_Dut)],
    [Some(Msg_4_0), Some(Msg_4_1_Dut), Some(Msg_4_2), Some(Msg_4_3), Some(Msg_4_4_Dut), Some(Msg_4_5_Dut), Some(Msg_4_6_Dut), Some(Msg_4_7_Dut)],
    [Some(Msg_5_0_Dut), Some(Msg_5_1_Dut), Some(Msg_5_2_Dut), Some(Msg_5_3_Dut), Some(Msg_5_4_Dut), Some(Msg_5_5_Dut), Some(Msg_5_6_Dut), Some(Msg_5_7)],
    [Some(Msg_6_0_Dut), Some(Msg_6_1), Some(Msg_6_2_Dut), Some(Msg_6_3_Dut), Some(Msg_6_4), Some(Msg_6_5_Dut), Some(Msg_6_6_Dut), Some(Msg_6_7_Dut)],
    [Some(Msg_7_0_Dut), Some(Msg_7_1_Dut), Some(Msg_7_2_Dut), Some(Msg_7_3_Dut), Some(Msg_7_4), Some(Msg_7_5_Dut), Some(Msg_7_6_Dut), Some(Msg_7_7_Dut)],
    [Some(Msg_8_0_Dut), Some(Msg_8_1_Dut), Some(Msg_8_2_Dut), Some(Msg_8_3_Dut), Some(Msg_8_4_Dut), Some(Msg_8_5_Dut), Some(Msg_8_6_Dut), Some(Msg_8_7_Dut)],
    [None, None, None, None, None, None, None, None],
    [Some(Msg_10_0), Some(Msg_10_1), Some(Msg_10_2), Some(Msg_10_3), Some(Msg_10_4), Some(Msg_10_5), Some(Msg_10_6), Some(Msg_10_7)],
    [Some(Msg_11_0), Some(Msg_11_1), Some(Msg_11_2), Some(Msg_11_3), Some(Msg_11_4), Some(Msg_11_5), Some(Msg_11_6), Some(Msg_11_7)],
    [Some(Msg_12_0), Some(Msg_12_1), Some(Msg_12_2), Some(Msg_12_3), Some(Msg_12_4), Some(Msg_12_5), Some(Msg_12_6), Some(Msg_12_7)],
    [Some(Msg_13_0), Some(Msg_13_1), Some(Msg_13_2), Some(Msg_13_3), Some(Msg_13_4), Some(Msg_13_5), Some(Msg_13_6), Some(Msg_13_7)],
    [Some(Msg_14_0), Some(Msg_14_1), Some(Msg_14_2), Some(Msg_14_3), Some(Msg_14_4), Some(Msg_14_5), Some(Msg_14_6), Some(Msg_14_7)],
    [Some(Msg_15_0), Some(Msg_15_1), Some(Msg_15_2), Some(Msg_15_3), Some(Msg_15_4), Some(Msg_15_5), Some(Msg_15_6), Some(Msg_15_7)]
  ]

  /** The flat 128-entry tables. */
  const MsgTableEng: seq<Option<string>> := Flatten(MsgRowsEng)
  const MsgTableFr: seq<Option<string>> := Flatten(MsgRowsFr)
  const MsgTableGer: seq<Option<string>> := Flatten(MsgRowsGer)
  const MsgTableSpa: seq<Option<string>> := Flatten(MsgRowsSpa)
  const MsgTableIta: seq<Option<string>> := Flatten(MsgRowsIta)
  const MsgTableDut: seq<Option<string>> := Flatten(MsgRowsDut)

  /** Row-major concatenation of initializer lines. */
  function Flatten<T>(rows: seq<seq<T>>): seq<T>
  {
    if |rows| == 0 then [] else rows[0] + Flatten(rows[1..])
  }

  /** Every line of `rows` holds exactly `width` entries. */
  predicate Rectangular<T>(rows: seq<seq<T>>, width: nat)
  {
    forall b | 0 <= b < |rows| :: |rows[b]| == width
  }

  lemma {:induction false} FlattenLength<T>(rows: seq<seq<T>>, width: nat)
    requires Rectangular(rows, width)
    ensures |Flatten(rows)| == |rows| * width
  {
    if |rows| > 0 {
      FlattenLength(rows[1..], width);
    }
  }

  /** Entry `t` of line `b` lands at flat index `b * width + t`. */
  lemma {:induction false} FlattenIndex<T>(rows: seq<seq<T>>, width: nat, b: nat, t: nat)
    requires Rectangular(rows, width)
    requires b < |rows| && t < width
    ensures b * width + t < |Flatten(rows)|
    ensures Flatten(rows)[b * width + t] == rows[b][t]
  {
    FlattenLength(rows, width);
    if b > 0 {
      FlattenIndex(rows[1..], width, b - 1, t);
      assert b * width + t == width + ((b - 1) * width + t);
    }
  }

  /** The initializer lines of the table of `lang`: 16 lines of 8 slots. */
  function MsgRows(lang: Language): (rows: seq<seq<Option<string>>>)
    ensures |rows| == BitmapBytes && Rectangular(rows, BitsPerByte)
  {
    match lang
    case English => MsgRowsEng
    case French => MsgRowsFr
    case German => MsgRowsGer
    case Spanish => MsgRowsSpa
    case Italian => MsgRowsIta
    case Dutch => MsgRowsDut
  }

  /** The 128-entry table of `lang`; entry `byteIdx * 8 + bitIdx` is slot `bitIdx` of line `byteIdx`. */
  function MsgTable(lang: Language): (table: seq<Option<string>>)
    ensures |table| == SlotCount
    ensures forall b, t | 0 <= b < BitmapBytes && 0 <= t < BitsPerByte ::
      b * BitsPerByte + t < |table| && table[b * BitsPerByte + t] == MsgRows(lang)[b][t]
  {
    var rows := MsgRows(lang);
    FlattenLength(rows, BitsPerByte);
    assert forall b, t | 0 <= b < BitmapBytes && 0 <= t < BitsPerByte ::
      b * BitsPerByte + t < |Flatten(rows)| && Flatten(rows)[b * BitsPerByte + t] == rows[b][t] by {
      forall b, t | 0 <= b < BitmapBytes && 0 <= t < BitsPerByte
        ensures b * BitsPerByte + t < |Flatten(rows)| && Flatten(rows)[b * BitsPerByte + t] == rows[b][t]
      {
        FlattenIndex(rows, BitsPerByte, b, t);
      }
    }
    match lang
    case English => MsgTableEng
    case French => MsgTableFr
    case German => MsgTableGer
    case Spanish => MsgTableSpa
    case Italian => MsgTableIta
    case Dutch => MsgTableDut
  }

  /** Notification code of bit `bitIdx` of bitmap byte `byteIdx`. */
  function SlotCode(byteIdx: nat, bitIdx: nat): (code: nat)
    requires byteIdx < BitmapBytes && bitIdx < BitsPerByte
    ensures code < SlotCount
    ensures code / BitsPerByte == byteIdx && code % BitsPerByte == bitIdx
  {
    byteIdx * BitsPerByte + bitIdx
  }

  /** The table entry of bit `bitIdx` of byte `byteIdx` in language `lang`. */
  function Lookup(lang: Language, byteIdx: nat, bitIdx: nat): (entry: Option<string>)
    requires byteIdx < BitmapBytes && bitIdx < BitsPerByte
    ensures entry == MsgRows(lang)[byteIdx][bitIdx]
  {
    MsgTable(lang)[SlotCode(byteIdx, bitIdx)]
  }

  datatype Severity = Info | Warning

  /** `text` ends with `suffix`. */
  predicate EndsWith(text: string, suffix: string)
  {
    |suffix| <= |text| && text[|text| - |suffix|..] == suffix
  }

  /** By convention a warning text ends with '!'; any other text, the empty one included, is
      information. */
  function SeverityOf(text: string): Severity
  {
    if |text| > 0 && text[|text| - 1] == '!' then Warning else Info
  }

  /** A text is a warning exactly when it ends with "!"; the empty text is information. */
  lemma WarningIffEndsWithBang(text: string)
    ensures SeverityOf(text) == Warning <==> EndsWith(text, "!")
    ensures SeverityOf(EmptyStr) == Info
  {
    if EndsWith(text, "!") {
      assert text[|text| - 1] == text[|text| - 1..][0];
    }
  }
}
