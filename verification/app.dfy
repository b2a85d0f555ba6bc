/**
 * app.py: the registration bot backed by an sqlite table.
 *
 * `/registrar`, sent as a reply to a photo, opens a conversation that asks for
 * a corridor, then a room, then a type (Chegada or Saída) through inline
 * buttons whose callback data is `prefix_value`; choosing the type inserts a
 * row into the `registros` table. `/ver` looks the table up by corridor, room
 * and date and reports the first Chegada and the first Saída found.
 *
 * Telegram calls become returned `Reply` values; the clock reading, the user
 * and whether the final message edit went through are parameters.
 */
module App {
  import opened Wrappers
  import opened Text
  import opened Clock
  import opened Dicts
  import opened Telegram

  // ---------------------------------------------------------------------
  // The corridor catalog: CORREDORES
  // ---------------------------------------------------------------------

  /** Python's `list(range(lo, hi))`. */
  function Range(lo: nat, hi: nat): (r: seq<nat>)
    ensures |r| == if lo < hi then hi - lo else 0
    ensures forall k :: 0 <= k < |r| ==> r[k] == lo + k
    decreases hi - lo
  {
    if lo < hi then [lo] + Range(lo + 1, hi) else []
  }

  /** Each corridor with the bounds of its `range(lo, hi)` of room numbers, in the dict's order. */
  const Corredores: seq<(string, (nat, nat))> := [
    ("Corredor A Térreo", (1, 19)),
    ("Corredor B Térreo", (41, 51)),
    ("Corredor C Térreo", (80, 88)),
    ("Corredor A 1º Piso", (20, 40)),
    ("Corredor B 1º Piso", (53, 68)),
    ("Corredor C 1º Piso", (89, 99))
  ]

  /** `CORREDORES[corredor]`, `None` for an unknown corridor. */
  function CorridorRooms(corredor: string): Option<seq<nat>> {
    match Find(Corredores, corredor)
    case Some(bounds) => Some(Range(bounds.0, bounds.1))
    case None => None
  }

  /**
   * Each corridor name leads to its own range of room numbers, the upper bound
   * excluded: "Corredor A Térreo" has rooms 1 to 18, "Corredor C 1º Piso" 89 to 98.
   */
  lemma CatalogRanges()
    ensures CorridorRooms("Corredor A Térreo") == Some(Range(1, 19))
    ensures CorridorRooms("Corredor B Térreo") == Some(Range(41, 51))
    ensures CorridorRooms("Corredor C Térreo") == Some(Range(80, 88))
    ensures CorridorRooms("Corredor A 1º Piso") == Some(Range(20, 40))
    ensures CorridorRooms("Corredor B 1º Piso") == Some(Range(53, 68))
    ensures CorridorRooms("Corredor C 1º Piso") == Some(Range(89, 99))
    ensures var r := Range(1, 19); |r| == 18 && r[0] == 1 && r[17] == 18
    ensures var r := Range(89, 99); |r| == 10 && r[0] == 89 && r[9] == 98
  {
    CatalogLookup(0);
    CatalogLookup(1);
    CatalogLookup(2);
    CatalogLookup(3);
    CatalogLookup(4);
    CatalogLookup(5);
  }

  /** The catalog's names are pairwise distinct: they differ in length or in the corridor letter. */
  lemma CatalogNamesDistinct()
    ensures forall i, j :: 0 <= i < j < |Corredores| ==> Corredores[i].0 != Corredores[j].0
  {
    var shape := [(17, 'A'), (17, 'B'), (17, 'C'), (18, 'A'), (18, 'B'), (18, 'C')];
    forall i | 0 <= i < |Corredores| ensures |Corredores[i].0| > 9 && (|Corredores[i].0|, Corredores[i].0[9]) == shape[i] { }
  }

  lemma {:induction false} CatalogLookup(i: nat)
    requires i < |Corredores|
    ensures CorridorRooms(Corredores[i].0) == Some(Range(Corredores[i].1.0, Corredores[i].1.1))
  {
    CatalogNamesDistinct();
    FindFirst(Corredores, i);
  }

  /** Whatever corridor is known, its rooms are non-empty and numbered without gaps. */
  lemma {:induction false} CatalogContiguous(corredor: string)
    requires CorridorRooms(corredor).Some?
    ensures var rooms := CorridorRooms(corredor).value;
      |rooms| > 0 && forall k :: 0 <= k < |rooms| ==> rooms[k] == rooms[0] + k
  {
    var i :| 0 <= i < |Corredores| && Corredores[i] == (corredor, Find(Corredores, corredor).value);
  }

  // ---------------------------------------------------------------------
  // Callback data: "corredor_<name>", "sala_<number>", "tipo_<type>"
  // ---------------------------------------------------------------------

  const CorridorPrefix := "corredor"
  const RoomPrefix := "sala"
  const TypePrefix := "tipo"

  /** The callback data of a button: `f"{prefix}_{value}"`. */
  function CallbackData(prefix: string, value: string): string {
    prefix + "_" + value
  }

  /** `data.split("_", 1)[1]`, `None` where Python raises `IndexError`. */
  function CallbackValue(data: string): Option<string> {
    var parts := SplitOnce(data, '_');
    if |parts| == 2 then Some(parts[1]) else None
  }

  /** The handler pattern `^prefix_`. */
  predicate Matches(data: string, prefix: string) {
    StartsWith(data, prefix + "_")
  }

  /** Any data the pattern accepts decodes to everything after the prefix, underscores included. */
  lemma {:induction false} MatchedValue(data: string, prefix: string)
    requires '_' !in prefix && Matches(data, prefix)
    ensures CallbackValue(data) == Some(data[|prefix| + 1..])
  {
    assert data == prefix + ['_'] + data[|prefix| + 1..];
    SplitOnceAfterHead(prefix, '_', data[|prefix| + 1..]);
  }

  /** A button's data is accepted by its own state's pattern only, and decodes to the value it was built from. */
  lemma {:induction false} CallbackRoundTrip(value: string)
    ensures Matches(CallbackData(CorridorPrefix, value), CorridorPrefix)
    ensures Matches(CallbackData(RoomPrefix, value), RoomPrefix)
    ensures Matches(CallbackData(TypePrefix, value), TypePrefix)
    ensures CallbackValue(CallbackData(CorridorPrefix, value)) == Some(value)
    ensures CallbackValue(CallbackData(RoomPrefix, value)) == Some(value)
    ensures CallbackValue(CallbackData(TypePrefix, value)) == Some(value)
    ensures !Matches(CallbackData(CorridorPrefix, value), RoomPrefix) && !Matches(CallbackData(CorridorPrefix, value), TypePrefix)
    ensures !Matches(CallbackData(RoomPrefix, value), CorridorPrefix) && !Matches(CallbackData(RoomPrefix, value), TypePrefix)
    ensures !Matches(CallbackData(TypePrefix, value), CorridorPrefix) && !Matches(CallbackData(TypePrefix, value), RoomPrefix)
  {
    MatchedValue(CallbackData(CorridorPrefix, value), CorridorPrefix);
    MatchedValue(CallbackData(RoomPrefix, value), RoomPrefix);
    MatchedValue(CallbackData(TypePrefix, value), TypePrefix);
  }

  // ---------------------------------------------------------------------
  // Replies and keyboards
  // ---------------------------------------------------------------------

  const StartText := "📸 Envie uma foto e use /registrar para iniciar!"
  const ReplyToPhotoText := "\U{26A0}\U{FE0F} Responda a uma foto com este comando!"
  const ChooseCorridorText := "📍 Escolha o Corredor:"

  /** One button per catalog corridor, in catalog order. */
  function CorridorKeyboard(): seq<Button> {
    seq(|Corredores|, i requires 0 <= i < |Corredores| =>
      Button(Corredores[i].0, CallbackData(CorridorPrefix, Corredores[i].0)))
  }

  /** One button per room number. */
  function RoomKeyboard(rooms: seq<nat>): seq<Button> {
    seq(|rooms|, i requires 0 <= i < |rooms| =>
      Button(Decimal(rooms[i]), CallbackData(RoomPrefix, Decimal(rooms[i]))))
  }

  const TypeKeyboard: seq<Button> :=
    [Button("Chegada", CallbackData(TypePrefix, "Chegada")), Button("Saída", CallbackData(TypePrefix, "Saída"))]

  /** Every corridor button is accepted in the corridor state and leads to a known corridor. */
  lemma {:induction false} CorridorButtonsDecode(i: nat)
    requires i < |CorridorKeyboard()|
    ensures var b := CorridorKeyboard()[i];
      Matches(b.data, CorridorPrefix) && CallbackValue(b.data) == Some(b.text)
      && b.data[|CorridorPrefix| + 1..] == b.text && CorridorRooms(b.text).Some?
  {
    var name := Corredores[i].0;
    assert CorridorKeyboard()[i] == Button(name, CallbackData(CorridorPrefix, name));
    CallbackRoundTrip(name);
    CatalogLookup(i);
  }

  // ---------------------------------------------------------------------
  // The conversation
  // ---------------------------------------------------------------------

  /**
   * Where the ConversationHandler stands for this user in this chat: outside
   * a conversation, or waiting in ESCOLHER_CORREDOR, ESCOLHER_SALA or ESCOLHER_TIPO.
   */
  datatype ConvState = Inactive | AwaitCorridor | AwaitRoom | AwaitType

  /**
   * What a handler hands back: a state to move to (`Inactive` for END),
   * `None` (`Stay`: the state is kept), or an exception (`Raised`: the state is
   * kept too, and what the handler changed before raising stays changed).
   */
  datatype Outcome = Next(state: ConvState) | Stay | Raised

  /** What `user_data` holds in each state: the keys a later handler reads are always present. */
  predicate Coherent(st: ConvState, ud: map<string, string>) {
    match st
    case Inactive => ud == map[]
    case AwaitCorridor => "file_id" in ud
    case AwaitRoom => "file_id" in ud && "corredor" in ud && CorridorRooms(ud["corredor"]).Some?
    case AwaitType => "file_id" in ud && "corredor" in ud && CorridorRooms(ud["corredor"]).Some? && "sala" in ud
  }

  /** Whether the replied-to message exists and carries a photo. */
  predicate HasPhoto(replied: Option<seq<string>>) {
    replied.Some? && |replied.value| > 0
  }

  /**
   * `/registrar`: refuses unless it replies to a photo; otherwise keeps the
   * largest size's file id and offers the corridors.
   */
  method Registrar(ud: UserData, replied: Option<seq<string>>) returns (outcome: Outcome, r: Reply)
    modifies ud
    ensures HasPhoto(replied) ==>
      && outcome == Next(AwaitCorridor)
      && ud.entries == old(ud.entries)["file_id" := replied.value[|replied.value| - 1]]
      && r == Menu(ChooseCorridorText, CorridorKeyboard())
    ensures !HasPhoto(replied) ==> outcome == Stay && ud.entries == old(ud.entries) && r == Message(ReplyToPhotoText)
  {
    if !HasPhoto(replied) {
      return Stay, Message(ReplyToPhotoText);
    }
    var sizes := replied.value;
    ud.Set("file_id", sizes[|sizes| - 1]);
    outcome, r := Next(AwaitCorridor), Menu(ChooseCorridorText, CorridorKeyboard());
  }

  function CorridorChosenText(corredor: string): string {
    "📍 Corredor: " + corredor + "\n🔢 Escolha a Sala:"
  }

  /**
   * A corridor button: records the corridor, then looks its rooms up; an
   * unknown corridor raises `KeyError` after the corridor was recorded.
   */
  method EscolherCorredor(ud: UserData, data: string) returns (outcome: Outcome, r: Reply)
    requires Matches(data, CorridorPrefix)
    modifies ud
    ensures var corredor := data[|CorridorPrefix| + 1..];
      && ud.entries == old(ud.entries)["corredor" := corredor]
      && match CorridorRooms(corredor)
         case Some(rooms) => outcome == Next(AwaitRoom) && r == Menu(CorridorChosenText(corredor), RoomKeyboard(rooms))
         case None => outcome == Raised && r == NoReply
  {
    MatchedValue(data, CorridorPrefix);
    var corredor := CallbackValue(data).value;
    ud.Set("corredor", corredor);
    var rooms := CorridorRooms(corredor);
    if rooms.None? {
      return Raised, NoReply;
    }
    outcome, r := Next(AwaitRoom), Menu(CorridorChosenText(corredor), RoomKeyboard(rooms.value));
  }

  function RoomChosenText(corredor: string, sala: string): string {
    "📍 Corredor: " + corredor + "\n🔢 Sala: " + sala + "\n🕒 Escolha o Tipo:"
  }

  /** A room button: records the room and offers the two types. */
  method EscolherSala(ud: UserData, data: string) returns (outcome: Outcome, r: Reply)
    requires Matches(data, RoomPrefix) && "corredor" in ud.entries
    modifies ud
    ensures var sala := data[|RoomPrefix| + 1..];
      && ud.entries == old(ud.entries)["sala" := sala]
      && outcome == Next(AwaitType)
      && r == Menu(RoomChosenText(old(ud.entries)["corredor"], sala), TypeKeyboard)
  {
    MatchedValue(data, RoomPrefix);
    var sala := CallbackValue(data).value;
    ud.Set("sala", sala);
    outcome, r := Next(AwaitType), Menu(RoomChosenText(ud.entries["corredor"], sala), TypeKeyboard);
  }

  // ---------------------------------------------------------------------
  // The registros table
  // ---------------------------------------------------------------------

  /** One row of `registros`; `id` is the AUTOINCREMENT key. */
  datatype Row = Row(
    id: nat, userId: int, username: Option<string>,
    corredor: string, sala: string, tipo: string,
    data: string, hora: string, fileId: string)

  class RecordTable {
    var rows: seq<Row>

    /** Rows are never deleted, so the i-th row carries id i + 1. */
    ghost predicate Valid()
      reads this
    {
      forall i :: 0 <= i < |rows| ==> rows[i].id == i + 1
    }

    constructor ()
      ensures Valid() && rows == []
    {
      rows := [];
    }

    /** `INSERT INTO registros ...`: appends one row and leaves every earlier row as it was. */
    method Insert(userId: int, username: Option<string>, corredor: string, sala: string,
                  tipo: string, data: string, hora: string, fileId: string) returns (id: nat)
      requires Valid()
      modifies this
      ensures Valid()
      ensures id == |old(rows)| + 1
      ensures rows == old(rows) + [Row(id, userId, username, corredor, sala, tipo, data, hora, fileId)]
    {
      id := |rows| + 1;
      rows := rows + [Row(id, userId, username, corredor, sala, tipo, data, hora, fileId)];
    }
  }

  /** The row a type button commits: the session's corridor, room and file id, the chosen type, the user and the clock. */
  function CommittedRow(id: nat, user: User, session: map<string, string>, tipo: string, now: DateTime): Row
    requires "corredor" in session && "sala" in session && "file_id" in session && Valid(now)
  {
    Row(id, user.id, user.username, session["corredor"], session["sala"], tipo,
        IsoDate(now), ClockTime(now), session["file_id"])
  }

  function RegisteredText(corredor: string, sala: string, tipo: string, now: DateTime): string
    requires Valid(now)
  {
    "✅ Foto registrada!\n📍 " + corredor + "\n🔢 Sala " + sala + "\n🕒 " + tipo
      + "\n📆 " + IsoDate(now) + " " + ClockTime(now)
  }

  /**
   * A type button: inserts the row, then edits the message; only when that
   * edit goes through is `user_data` cleared and the conversation ended. If it
   * fails the row stays inserted and the session and state are kept.
   */
  method EscolherTipo(ud: UserData, table: RecordTable, data: string, user: User, now: DateTime, delivered: bool)
    returns (outcome: Outcome, r: Reply)
    requires Matches(data, TypePrefix)
    requires "file_id" in ud.entries && "corredor" in ud.entries && "sala" in ud.entries
    requires table.Valid() && Valid(now)
    modifies ud, table
    ensures table.Valid()
    ensures table.rows == old(table.rows)
      + [CommittedRow(|old(table.rows)| + 1, user, old(ud.entries), data[|TypePrefix| + 1..], now)]
    ensures delivered ==>
      && outcome == Next(Inactive) && ud.entries == map[]
      && r == Message(RegisteredText(old(ud.entries)["corredor"], old(ud.entries)["sala"], data[|TypePrefix| + 1..], now))
    ensures !delivered ==> outcome == Raised && ud.entries == old(ud.entries) && r == NoReply
  {
    MatchedValue(data, TypePrefix);
    var tipo := CallbackValue(data).value;
    var corredor, sala := ud.entries["corredor"], ud.entries["sala"];
    var id := table.Insert(user.id, user.username, corredor, sala, tipo,
                           IsoDate(now), ClockTime(now), ud.entries["file_id"]);
    assert table.rows == old(table.rows) + [CommittedRow(id, user, ud.entries, tipo, now)];
    if !delivered {
      return Raised, NoReply;
    }
    r := Message(RegisteredText(corredor, sala, tipo, now));
    ud.Clear();
    outcome := Next(Inactive);
  }

  // ---------------------------------------------------------------------
  // /ver
  // ---------------------------------------------------------------------

  /** How `/ver` reads its arguments: too few, the date missing (`args[3]` raises), or a query. */
  datatype VerArgs = TooFewArgs | MissingDate | VerQuery(corredor: string, sala: string, data: string)

  /** The corridor is taken to be the first two words, the room the third, the date the fourth. */
  function ParseVerArgs(args: seq<string>): VerArgs {
    if |args| < 3 then TooFewArgs
    else if |args| < 4 then MissingDate
    else VerQuery(args[0] + " " + args[1], args[2], args[3])
  }

  predicate OnKey(x: Row, corredor: string, sala: string, data: string) {
    x.corredor == corredor && x.sala == sala && x.data == data
  }

  /** `SELECT ... WHERE corredor=? AND sala=? AND data=?`, in table order. */
  function Select(rows: seq<Row>, corredor: string, sala: string, data: string): (sel: seq<Row>)
    ensures forall x :: x in sel <==> x in rows && OnKey(x, corredor, sala, data)
  {
    if rows == [] then []
    else
      var rest := Select(rows[1..], corredor, sala, data);
      if OnKey(rows[0], corredor, sala, data) then [rows[0]] + rest else rest
  }

  /** A key no row is stored under selects nothing. */
  lemma {:induction false} SelectNone(rows: seq<Row>, corredor: string, sala: string, data: string)
    requires forall i :: 0 <= i < |rows| ==> !OnKey(rows[i], corredor, sala, data)
    ensures Select(rows, corredor, sala, data) == []
  {
    if rows != [] {
      SelectNone(rows[1..], corredor, sala, data);
    }
  }

  /** The index of the first row of type `tipo`, or the length when there is none. */
  function FirstOfTipo(rows: seq<Row>, tipo: string): (i: nat)
    ensures i <= |rows|
    ensures i < |rows| ==> rows[i].tipo == tipo
    ensures forall j :: 0 <= j < i ==> rows[j].tipo != tipo
  {
    if rows == [] || rows[0].tipo == tipo then 0 else 1 + FirstOfTipo(rows[1..], tipo)
  }

  /** `next((r for r in rows if r[0] == tipo), None)`. */
  function Slot(rows: seq<Row>, tipo: string): Option<Row> {
    var i := FirstOfTipo(rows, tipo);
    if i < |rows| then Some(rows[i]) else None
  }

  /** The index of the earliest row of the whole table registering `tipo` for the key, or the length when none does. */
  function FirstRegistration(rows: seq<Row>, corredor: string, sala: string, data: string, tipo: string): (i: nat)
    ensures i <= |rows|
    ensures i < |rows| ==> OnKey(rows[i], corredor, sala, data) && rows[i].tipo == tipo
    ensures forall j :: 0 <= j < i ==> !(OnKey(rows[j], corredor, sala, data) && rows[j].tipo == tipo)
  {
    if rows == [] || (OnKey(rows[0], corredor, sala, data) && rows[0].tipo == tipo) then 0
    else 1 + FirstRegistration(rows[1..], corredor, sala, data, tipo)
  }

  /** Selecting by key and then taking the first row of a type finds the table's earliest registration of that type. */
  lemma {:induction false} SelectThenFirst(rows: seq<Row>, corredor: string, sala: string, data: string, tipo: string)
    ensures var i := FirstRegistration(rows, corredor, sala, data, tipo);
      Slot(Select(rows, corredor, sala, data), tipo) == if i < |rows| then Some(rows[i]) else None
  {
    if rows != [] {
      var rest := rows[1..];
      SelectThenFirst(rest, corredor, sala, data, tipo);
      var sel := Select(rows, corredor, sala, data);
      var selRest := Select(rest, corredor, sala, data);
      if OnKey(rows[0], corredor, sala, data) {
        assert sel == [rows[0]] + selRest;
        if rows[0].tipo != tipo {
          assert sel[1..] == selRest;
          assert FirstOfTipo(sel, tipo) == 1 + FirstOfTipo(selRest, tipo);
        }
      } else {
        assert sel == selRest;
      }
    }
  }

  const UsageText := "\U{26A0}\U{FE0F} Use: /ver \"Corredor\" Sala Data\nEx: /ver \"Corredor A Térreo\" 07 2025-07-02"
  const InvalidFormatText := "\U{26A0}\U{FE0F} Formato inválido! Use: /ver \"Corredor\" Sala Data"

  function SlotText(found: bool): string {
    if found then "📎 [Foto]" else "❌ Não registrada"
  }

  function VerText(data: string, corredor: string, sala: string, chegada: bool, saida: bool): string {
    "📅 " + data + " - " + corredor + " - Sala " + sala + "\n\n"
      + "\U{1F5BC}\U{FE0F} Chegada:\n" + SlotText(chegada) + "\n\n"
      + "\U{1F5BC}\U{FE0F} Saída:\n" + SlotText(saida)
  }

  function PhotoOf(slot: Option<Row>): seq<string> {
    if slot.Some? then [slot.value.fileId] else []
  }

  /** The answer to a parsed `/ver`: the reply text, followed by the Chegada photo and then the Saída photo that were found. */
  function VerReply(rows: seq<Row>, q: VerArgs): Reply {
    match q
    case TooFewArgs => Message(UsageText)
    case MissingDate => Message(InvalidFormatText)
    case VerQuery(corredor, sala, data) =>
      var found := Select(rows, corredor, sala, data);
      var chegada, saida := Slot(found, "Chegada"), Slot(found, "Saída");
      MessageWithPhotos(VerText(data, corredor, sala, chegada.Some?, saida.Some?), PhotoOf(chegada) + PhotoOf(saida))
  }

  /** `/ver` with its arguments. */
  function VerRegistro(rows: seq<Row>, args: seq<string>): Reply {
    VerReply(rows, ParseVerArgs(args))
  }

  /** Fewer than four arguments never reach the table: three give the format error, fewer the usage text. */
  lemma {:induction false} VerArgumentCount(rows: seq<Row>, args: seq<string>)
    ensures |args| < 3 ==> VerRegistro(rows, args) == Message(UsageText)
    ensures |args| == 3 ==> VerRegistro(rows, args) == Message(InvalidFormatText)
    ensures VerRegistro(rows, args).MessageWithPhotos? <==> |args| >= 4
  {
  }

  /** A slot already filled is not changed by rows appended later: the first registration wins. */
  lemma {:induction false} FirstRegistrationWins(rows: seq<Row>, more: seq<Row>, corredor: string, sala: string, data: string, tipo: string)
    requires Slot(Select(rows, corredor, sala, data), tipo).Some?
    ensures Slot(Select(rows + more, corredor, sala, data), tipo) == Slot(Select(rows, corredor, sala, data), tipo)
  {
    SelectThenFirst(rows, corredor, sala, data, tipo);
    SelectThenFirst(rows + more, corredor, sala, data, tipo);
    var all := rows + more;
    var i := FirstRegistration(rows, corredor, sala, data, tipo);
    var i' := FirstRegistration(all, corredor, sala, data, tipo);
    assert i < |rows| && all[i] == rows[i];
  }

  /** Once both slots of a key are filled, `/ver` answers the same whatever is inserted afterwards. */
  lemma {:induction false} VerIgnoresLaterRows(rows: seq<Row>, more: seq<Row>, corredor: string, sala: string, data: string)
    requires Slot(Select(rows, corredor, sala, data), "Chegada").Some?
    requires Slot(Select(rows, corredor, sala, data), "Saída").Some?
    ensures VerReply(rows + more, VerQuery(corredor, sala, data)) == VerReply(rows, VerQuery(corredor, sala, data))
  {
    FirstRegistrationWins(rows, more, corredor, sala, data, "Chegada");
    FirstRegistrationWins(rows, more, corredor, sala, data, "Saída");
  }

  /** Appending a row fills a slot only if it was empty and the row is of that key and type; a filled slot is kept. */
  lemma {:induction false} SlotAfterAppend(rows: seq<Row>, x: Row, corredor: string, sala: string, data: string, tipo: string)
    ensures var before := Slot(Select(rows, corredor, sala, data), tipo);
      Slot(Select(rows + [x], corredor, sala, data), tipo) ==
        if before.Some? then before
        else if OnKey(x, corredor, sala, data) && x.tipo == tipo then Some(x)
        else None
  {
    var all := rows + [x];
    SelectThenFirst(rows, corredor, sala, data, tipo);
    SelectThenFirst(all, corredor, sala, data, tipo);
    var i := FirstRegistration(rows, corredor, sala, data, tipo);
    var i' := FirstRegistration(all, corredor, sala, data, tipo);
    forall j | 0 <= j < |rows| ensures all[j] == rows[j] { }
    if i < |rows| {
      assert all[i] == rows[i];
      assert i' == i;
    } else {
      assert all[|rows|] == x;
      assert i' >= |rows|;
    }
  }

  /** A Chegada committed on a key that had none is the one `/ver` shows, first among the photos. */
  lemma {:induction false} CommitThenView(rows: seq<Row>, x: Row)
    requires x.tipo == "Chegada" && Slot(Select(rows, x.corredor, x.sala, x.data), "Chegada").None?
    ensures var r := VerReply(rows + [x], VerQuery(x.corredor, x.sala, x.data));
      r.MessageWithPhotos? && r.photos != [] && r.photos[0] == x.fileId
      && r.text == VerText(x.data, x.corredor, x.sala, true, Slot(Select(rows, x.corredor, x.sala, x.data), "Saída").Some?)
  {
    SlotAfterAppend(rows, x, x.corredor, x.sala, x.data, "Chegada");
    SlotAfterAppend(rows, x, x.corredor, x.sala, x.data, "Saída");
  }

  /** A key with no rows renders both slots as "Não registrada" and sends no photo. */
  lemma {:induction false} NothingRegistered(rows: seq<Row>, corredor: string, sala: string, data: string)
    requires forall i :: 0 <= i < |rows| ==> !OnKey(rows[i], corredor, sala, data)
    ensures VerReply(rows, VerQuery(corredor, sala, data)) == MessageWithPhotos(VerText(data, corredor, sala, false, false), [])
  {
    SelectNone(rows, corredor, sala, data);
  }

  /** Every catalog name has a space at positions 8 and 10 ("Corredor X ..."). */
  lemma {:induction false} CatalogNameSpaces(i: nat)
    requires i < |Corredores|
    ensures |Corredores[i].0| > 10 && Corredores[i].0[8] == ' ' && Corredores[i].0[10] == ' '
  {
  }

  /** Two words joined by one space have their only space where they were joined. */
  lemma {:induction false} OnlyJoiningSpace(a: string, b: string, i: nat)
    requires ' ' !in a && ' ' !in b
    requires i < |a + " " + b| && (a + " " + b)[i] == ' '
    ensures i == |a|
  {
  }

  /** With whitespace-free arguments, the corridor `/ver` builds has one space, so it is never a catalog name. */
  lemma {:induction false} VerCorridorNeverInCatalog(args: seq<string>)
    requires |args| >= 4 && ' ' !in args[0] && ' ' !in args[1]
    ensures CorridorRooms(ParseVerArgs(args).corredor).None?
  {
    var c := args[0] + " " + args[1];
    if CorridorRooms(c).Some? {
      var i :| 0 <= i < |Corredores| && Corredores[i].0 == c;
      CatalogNameSpaces(i);
      OnlyJoiningSpace(args[0], args[1], 8);
    }
  }

  /** Rows whose corridor came from the catalog, as every row committed through the buttons does. */
  predicate CatalogRows(rows: seq<Row>) {
    forall i :: 0 <= i < |rows| ==> CorridorRooms(rows[i].corredor).Some?
  }

  /** As written, `/ver` finds nothing in a table of catalog rows, whatever whitespace-free arguments it gets. */
  lemma {:induction false} VerMissesCatalogRows(rows: seq<Row>, args: seq<string>)
    requires CatalogRows(rows)
    requires |args| >= 4 && ' ' !in args[0] && ' ' !in args[1]
    ensures var q := ParseVerArgs(args);
      VerRegistro(rows, args) == MessageWithPhotos(VerText(q.data, q.corredor, q.sala, false, false), [])
  {
    var q := ParseVerArgs(args);
    VerCorridorNeverInCatalog(args);
    NothingRegistered(rows, q.corredor, q.sala, q.data);
  }

  /** The corridor as all words but the last two, joined by spaces; the room and the date as the last two. */
  function ParseVerArgsByWords(args: seq<string>): VerArgs {
    if |args| < 3 then TooFewArgs
    else VerQuery(Join(args[..|args| - 2], ' '), args[|args| - 2], args[|args| - 1])
  }

  /**
   * Read by words, the arguments of a committed row's corridor, room and date
   * find that row. The arguments are the corridor split at single spaces
   * followed by the room and the date, which is what `context.args` yields
   * for a catalog corridor (no leading, trailing or repeated spaces); the
   * lemma covers the first Chegada of a key.
   */
  lemma {:induction false} ByWordsFindsCommittedRow(rows: seq<Row>, x: Row)
    requires x.tipo == "Chegada" && Slot(Select(rows, x.corredor, x.sala, x.data), "Chegada").None?
    ensures var args := Split(x.corredor, ' ') + [x.sala, x.data];
      var r := VerReply(rows + [x], ParseVerArgsByWords(args));
      r.MessageWithPhotos? && r.photos != [] && r.photos[0] == x.fileId
  {
    var words := Split(x.corredor, ' ');
    var args := words + [x.sala, x.data];
    assert args[..|args| - 2] == words;
    JoinSplit(x.corredor, ' ');
    CommitThenView(rows, x);
  }

  // ---------------------------------------------------------------------
  // Routing updates: the handlers registered in main()
  // ---------------------------------------------------------------------

  /** The updates the bot handles: `/start`, `/ver args`, `/registrar` (with the photo sizes of the replied-to message, if any) and button presses. */
  datatype Update =
    | StartCommand
    | VerCommand(args: seq<string>)
    | RegistrarCommand(replied: Option<seq<string>>)
    | CallbackQuery(data: string)

  predicate PicksKnownCorridor(data: string) {
    Matches(data, CorridorPrefix) && CorridorRooms(data[|CorridorPrefix| + 1..]).Some?
  }

  /**
   * The conversation state after an update. Outside a conversation only
   * `/registrar` is looked at; inside one only the callback matching the
   * current state's pattern is, and anything else is left unhandled.
   */
  function NextState(st: ConvState, u: Update, delivered: bool): ConvState {
    match u
    case RegistrarCommand(replied) => if st == Inactive && HasPhoto(replied) then AwaitCorridor else st
    case CallbackQuery(data) =>
      (match st
       case Inactive => Inactive
       case AwaitCorridor => if PicksKnownCorridor(data) then AwaitRoom else AwaitCorridor
       case AwaitRoom => if Matches(data, RoomPrefix) then AwaitType else AwaitRoom
       case AwaitType => if Matches(data, TypePrefix) && delivered then Inactive else AwaitType)
    case _ => st
  }

  /** Whether an update, in a state, inserts a row: a type button while the type is awaited. */
  predicate Commits(st: ConvState, u: Update) {
    st == AwaitType && u.CallbackQuery? && Matches(u.data, TypePrefix)
  }

  /**
   * Dispatches one update as main() wires the handlers: `/start` and `/ver`
   * first, then the ConversationHandler, which keeps this user's state `st`
   * and stores the state the handler's outcome decides. `delivered` says
   * whether the final message edit went through.
   */
  method HandleUpdate(st: ConvState, ud: UserData, table: RecordTable, u: Update,
                      user: User, now: DateTime, delivered: bool) returns (next: ConvState, r: Reply)
    requires Coherent(st, ud.entries) && table.Valid() && Valid(now)
    modifies ud, table
    ensures Coherent(next, ud.entries) && table.Valid()
    ensures next == NextState(st, u, delivered)
    ensures Commits(st, u) ==>
      table.rows == old(table.rows) + [CommittedRow(|old(table.rows)| + 1, user, old(ud.entries), u.data[|TypePrefix| + 1..], now)]
    ensures !Commits(st, u) ==> table.rows == old(table.rows)
    ensures CatalogRows(old(table.rows)) ==> CatalogRows(table.rows)
    ensures u.StartCommand? ==> r == Message(StartText) && ud.entries == old(ud.entries)
    ensures u.VerCommand? ==> r == VerRegistro(old(table.rows), u.args) && ud.entries == old(ud.entries)
    ensures Handles(st, u) ==>
      ud.entries == SessionAfter(st, old(ud.entries), u, delivered) && r == HandlerReply(st, old(ud.entries), u, now, delivered)
    ensures !Handles(st, u) ==> ud.entries == old(ud.entries)
    ensures !Handles(st, u) && (u.RegistrarCommand? || u.CallbackQuery?) ==> r == NoReply
  {
    match u {
      case StartCommand =>
        next, r := st, Message(StartText);
      case VerCommand(args) =>
        next, r := st, VerRegistro(table.rows, args);
      case _ =>
        next, r := Converse(st, ud, table, u, user, now, delivered);
    }
  }

  /**
   * Whether the ConversationHandler runs a handler for the update: `/registrar`
   * outside a conversation, or a callback matching the current state's pattern.
   * Any other update reaches no handler of the conversation.
   */
  predicate Handles(st: ConvState, u: Update) {
    match u
    case RegistrarCommand(_) => st == Inactive
    case CallbackQuery(data) => st != Inactive && Matches(data, PrefixOf(st))
    case _ => false
  }

  /** `user_data` after a handled update: what the current state's handler writes into it. */
  function SessionAfter(st: ConvState, ud: map<string, string>, u: Update, delivered: bool): map<string, string>
    requires Handles(st, u)
  {
    match st
    case Inactive => if HasPhoto(u.replied) then ud["file_id" := u.replied.value[|u.replied.value| - 1]] else ud
    case AwaitCorridor => ud["corredor" := u.data[|CorridorPrefix| + 1..]]
    case AwaitRoom => ud["sala" := u.data[|RoomPrefix| + 1..]]
    case AwaitType => if delivered then map[] else ud
  }

  /** What the current state's handler sends for a handled update. */
  function HandlerReply(st: ConvState, ud: map<string, string>, u: Update, now: DateTime, delivered: bool): Reply
    requires Handles(st, u) && Coherent(st, ud) && Valid(now)
  {
    match st
    case Inactive => if HasPhoto(u.replied) then Menu(ChooseCorridorText, CorridorKeyboard()) else Message(ReplyToPhotoText)
    case AwaitCorridor =>
      var corredor := u.data[|CorridorPrefix| + 1..];
      (match CorridorRooms(corredor)
       case Some(rooms) => Menu(CorridorChosenText(corredor), RoomKeyboard(rooms))
       case None => NoReply)
    case AwaitRoom => Menu(RoomChosenText(ud["corredor"], u.data[|RoomPrefix| + 1..]), TypeKeyboard)
    case AwaitType =>
      if delivered then Message(RegisteredText(ud["corredor"], ud["sala"], u.data[|TypePrefix| + 1..], now)) else NoReply
  }

  /** An update no handler of the conversation takes leaves the state where it was. */
  lemma {:induction false} UnhandledKeepsState(st: ConvState, u: Update, delivered: bool)
    requires !Handles(st, u)
    ensures NextState(st, u, delivered) == st && !Commits(st, u)
  {
  }

  /**
   * The ConversationHandler: hands the update to the current state's handler
   * when its pattern matches; otherwise nothing runs, so `user_data`, the
   * table and the state are left alone and nothing is sent.
   */
  method Converse(st: ConvState, ud: UserData, table: RecordTable, u: Update,
                  user: User, now: DateTime, delivered: bool) returns (next: ConvState, r: Reply)
    requires u.RegistrarCommand? || u.CallbackQuery?
    requires Coherent(st, ud.entries) && table.Valid() && Valid(now)
    modifies ud, table
    ensures Coherent(next, ud.entries) && table.Valid()
    ensures next == NextState(st, u, delivered)
    ensures Handles(st, u) ==>
      ud.entries == SessionAfter(st, old(ud.entries), u, delivered) && r == HandlerReply(st, old(ud.entries), u, now, delivered)
    ensures !Handles(st, u) ==> ud.entries == old(ud.entries) && r == NoReply
    ensures Commits(st, u) ==>
      table.rows == old(table.rows) + [CommittedRow(|old(table.rows)| + 1, user, old(ud.entries), u.data[|TypePrefix| + 1..], now)]
    ensures !Commits(st, u) ==> table.rows == old(table.rows)
    ensures Commits(st, u) ==> CorridorRooms(table.rows[|table.rows| - 1].corredor).Some?
  {
    next, r := st, NoReply;
    match st {
      case Inactive =>
        if u.RegistrarCommand? {
          var outcome;
          outcome, r := Registrar(ud, u.replied);
          next := Settle(st, outcome);
        }
      case AwaitCorridor =>
        if u.CallbackQuery? {
          assert Handles(st, u) == Matches(u.data, CorridorPrefix);
          next, r := ConverseCorridor(ud, u);
        }
      case AwaitRoom =>
        if u.CallbackQuery? {
          assert Handles(st, u) == Matches(u.data, RoomPrefix);
          next, r := ConverseRoom(ud, u);
        }
      case AwaitType =>
        if u.CallbackQuery? {
          assert Handles(st, u) == Matches(u.data, TypePrefix);
          next, r := ConverseType(ud, table, u, user, now, delivered);
        }
    }
  }

  /** Awaiting the corridor: a `corredor_` button records it, and moves on when the catalog knows it; other data runs nothing. */
  method ConverseCorridor(ud: UserData, u: Update) returns (next: ConvState, r: Reply)
    requires u.CallbackQuery? && Coherent(AwaitCorridor, ud.entries)
    modifies ud
    ensures Coherent(next, ud.entries)
    ensures next == NextState(AwaitCorridor, u, false)
    ensures Matches(u.data, CorridorPrefix) ==>
      var corredor := u.data[|CorridorPrefix| + 1..];
      && ud.entries == old(ud.entries)["corredor" := corredor]
      && r == match CorridorRooms(corredor)
              case Some(rooms) => Menu(CorridorChosenText(corredor), RoomKeyboard(rooms))
              case None => NoReply
    ensures !Matches(u.data, CorridorPrefix) ==> ud.entries == old(ud.entries) && r == NoReply
  {
    next, r := AwaitCorridor, NoReply;
    if Matches(u.data, CorridorPrefix) {
      var outcome;
      outcome, r := EscolherCorredor(ud, u.data);
      next := Settle(AwaitCorridor, outcome);
    }
  }

  /** Awaiting the room: a `sala_` button records it and moves on; other data runs nothing. */
  method ConverseRoom(ud: UserData, u: Update) returns (next: ConvState, r: Reply)
    requires u.CallbackQuery? && Coherent(AwaitRoom, ud.entries)
    modifies ud
    ensures Coherent(next, ud.entries)
    ensures next == NextState(AwaitRoom, u, false)
    ensures Matches(u.data, RoomPrefix) ==>
      var sala := u.data[|RoomPrefix| + 1..];
      && ud.entries == old(ud.entries)["sala" := sala]
      && r == Menu(RoomChosenText(old(ud.entries)["corredor"], sala), TypeKeyboard)
    ensures !Matches(u.data, RoomPrefix) ==> ud.entries == old(ud.entries) && r == NoReply
  {
    next, r := AwaitRoom, NoReply;
    if Matches(u.data, RoomPrefix) {
      var outcome;
      outcome, r := EscolherSala(ud, u.data);
      next := Settle(AwaitRoom, outcome);
    }
  }

  /** Awaiting the type: a `tipo_` button commits the record; other data runs nothing. */
  method ConverseType(ud: UserData, table: RecordTable, u: Update,
                      user: User, now: DateTime, delivered: bool) returns (next: ConvState, r: Reply)
    requires u.CallbackQuery? && Coherent(AwaitType, ud.entries) && table.Valid() && Valid(now)
    modifies ud, table
    ensures Coherent(next, ud.entries) && table.Valid()
    ensures next == NextState(AwaitType, u, delivered)
    ensures Matches(u.data, TypePrefix) ==>
      && table.rows == old(table.rows) + [CommittedRow(|old(table.rows)| + 1, user, old(ud.entries), u.data[|TypePrefix| + 1..], now)]
      && CorridorRooms(table.rows[|table.rows| - 1].corredor).Some?
    ensures Matches(u.data, TypePrefix) && delivered ==>
      ud.entries == map[]
      && r == Message(RegisteredText(old(ud.entries)["corredor"], old(ud.entries)["sala"], u.data[|TypePrefix| + 1..], now))
    ensures Matches(u.data, TypePrefix) && !delivered ==> ud.entries == old(ud.entries) && r == NoReply
    ensures !Matches(u.data, TypePrefix) ==> table.rows == old(table.rows) && ud.entries == old(ud.entries) && r == NoReply
  {
    next, r := AwaitType, NoReply;
    if Matches(u.data, TypePrefix) {
      ghost var session := ud.entries;
      var outcome;
      outcome, r := EscolherTipo(ud, table, u.data, user, now, delivered);
      assert table.rows[|table.rows| - 1].corredor == session["corredor"];
      next := Settle(AwaitType, outcome);
    }
  }

  /** The ConversationHandler's bookkeeping: a returned state is stored, `None` or an exception keep the old one. */
  function Settle(st: ConvState, outcome: Outcome): ConvState {
    if outcome.Next? then outcome.state else st
  }

  // ---------------------------------------------------------------------
  // The order of the conversation
  // ---------------------------------------------------------------------

  function Successor(st: ConvState): ConvState {
    match st
    case Inactive => AwaitCorridor
    case AwaitCorridor => AwaitRoom
    case AwaitRoom => AwaitType
    case AwaitType => Inactive
  }

  function PrefixOf(st: ConvState): string
    requires st != Inactive
  {
    match st
    case AwaitCorridor => CorridorPrefix
    case AwaitRoom => RoomPrefix
    case AwaitType => TypePrefix
  }

  /**
   * An update keeps the state or moves it exactly one step on; a waiting
   * state moves only on a callback carrying its own prefix, and a
   * conversation starts only with `/registrar` on a photo.
   */
  lemma {:induction false} StepsInOrder(st: ConvState, u: Update, delivered: bool)
    ensures NextState(st, u, delivered) == st || NextState(st, u, delivered) == Successor(st)
    ensures st != Inactive && NextState(st, u, delivered) != st ==> u.CallbackQuery? && Matches(u.data, PrefixOf(st))
    ensures st == Inactive && NextState(st, u, delivered) != st ==> u.RegistrarCommand? && HasPhoto(u.replied)
  {
  }

  /** The state after a sequence of updates, each with whether its final edit went through. */
  function Run(st: ConvState, steps: seq<(Update, bool)>): ConvState {
    if steps == [] then st
    else NextState(Run(st, steps[..|steps| - 1]), steps[|steps| - 1].0, steps[|steps| - 1].1)
  }

  predicate PicksPhoto(u: Update) {
    u.RegistrarCommand? && HasPhoto(u.replied)
  }

  predicate PicksCorridor(u: Update) {
    u.CallbackQuery? && PicksKnownCorridor(u.data)
  }

  predicate PicksRoom(u: Update) {
    u.CallbackQuery? && Matches(u.data, RoomPrefix)
  }

  /** Which update moves each state one step on. */
  lemma {:induction false} StepPicks(prev: ConvState, u: Update, delivered: bool)
    ensures prev == Inactive && NextState(prev, u, delivered) == AwaitCorridor ==> PicksPhoto(u)
    ensures prev == AwaitCorridor && NextState(prev, u, delivered) == AwaitRoom ==> PicksCorridor(u)
    ensures prev == AwaitRoom && NextState(prev, u, delivered) == AwaitType ==> PicksRoom(u)
    ensures NextState(prev, u, delivered) == AwaitCorridor ==> prev == Inactive || prev == AwaitCorridor
    ensures NextState(prev, u, delivered) == AwaitRoom ==> prev == AwaitCorridor || prev == AwaitRoom
    ensures NextState(prev, u, delivered) == AwaitType ==> prev == AwaitRoom || prev == AwaitType
  {
  }

  /** The updates of `steps` picked a photo at i and then a known corridor at j. */
  predicate PhotoThenCorridor(steps: seq<(Update, bool)>, i: int, j: int) {
    0 <= i < j < |steps| && PicksPhoto(steps[i].0) && PicksCorridor(steps[j].0)
  }

  /** The updates of `steps` picked, in order, a photo at i, a known corridor at j and a room at k. */
  predicate PickedInOrder(steps: seq<(Update, bool)>, i: int, j: int, k: int) {
    PhotoThenCorridor(steps, i, j) && j < k < |steps| && PicksRoom(steps[k].0)
  }

  /**
   * Step i belongs to the conversation still open: no run of `steps` that
   * goes past step i ends back outside a conversation.
   */
  predicate Current(steps: seq<(Update, bool)>, i: int) {
    0 <= i < |steps| && forall m :: i < m <= |steps| ==> Run(Inactive, steps[..m]) != Inactive
  }

  /** A step of the open conversation stays so when one more step keeps the conversation open. */
  lemma {:induction false} StillCurrent(steps: seq<(Update, bool)>, i: int)
    requires |steps| > 0 && Current(steps[..|steps| - 1], i) && Run(Inactive, steps) != Inactive
    ensures Current(steps, i)
  {
    var n := |steps| - 1;
    forall m | i < m <= |steps| ensures Run(Inactive, steps[..m]) != Inactive {
      if m <= n {
        assert steps[..m] == steps[..n][..m];
      } else {
        assert steps[..m] == steps;
      }
    }
  }

  /**
   * The steps that opened the conversation now open and picked its corridor
   * and room: the last update that moved the state into each waiting state.
   */
  lemma {:induction false} PickIndices(steps: seq<(Update, bool)>) returns (i: int, j: int, k: int)
    ensures Run(Inactive, steps) == AwaitCorridor ==>
      Current(steps, i) && PicksPhoto(steps[i].0) && Run(Inactive, steps[..i]) == Inactive
    ensures Run(Inactive, steps) == AwaitRoom ==>
      PhotoThenCorridor(steps, i, j) && Current(steps, i)
      && Run(Inactive, steps[..i]) == Inactive && Run(Inactive, steps[..j]) == AwaitCorridor
    ensures Run(Inactive, steps) == AwaitType ==>
      PickedInOrder(steps, i, j, k) && Current(steps, i)
      && Run(Inactive, steps[..i]) == Inactive && Run(Inactive, steps[..j]) == AwaitCorridor
      && Run(Inactive, steps[..k]) == AwaitRoom
  {
    if steps == [] {
      return 0, 0, 0;
    }
    var n := |steps| - 1;
    var prefix := steps[..n];
    i, j, k := PickIndices(prefix);
    var prev := Run(Inactive, prefix);
    var now := Run(Inactive, steps);
    assert now == NextState(prev, steps[n].0, steps[n].1);
    StepPicks(prev, steps[n].0, steps[n].1);
    if now == Inactive {
      return;
    }
    if now == AwaitCorridor && prev == Inactive {
      i := n;
      assert steps[..n + 1] == steps;
    } else {
      StillCurrent(steps, i);
      KeptPicks(steps, i, j, k);
      KeptRun(steps, i);
      KeptRun(steps, j);
      KeptRun(steps, k);
      if now == AwaitRoom && prev == AwaitCorridor {
        j := n;
      } else if now == AwaitType && prev == AwaitRoom {
        k := n;
      }
    }
  }

  /** A run of the first x steps is the same whether taken from the whole run or from all but its last step. */
  lemma {:induction false} KeptRun(steps: seq<(Update, bool)>, x: int)
    requires |steps| > 0
    ensures 0 <= x < |steps| ==> Run(Inactive, steps[..x]) == Run(Inactive, steps[..|steps| - 1][..x])
  {
    if 0 <= x < |steps| {
      assert steps[..x] == steps[..|steps| - 1][..x];
    }
  }

  /** Picks made before the last step are picks of the whole run too. */
  lemma {:induction false} KeptPicks(steps: seq<(Update, bool)>, i: int, j: int, k: int)
    requires |steps| > 0
    ensures var prefix := steps[..|steps| - 1];
      && (0 <= i < |prefix| && PicksPhoto(prefix[i].0) ==> PicksPhoto(steps[i].0))
      && (PhotoThenCorridor(prefix, i, j) ==> PhotoThenCorridor(steps, i, j))
      && (PickedInOrder(prefix, i, j, k) ==> PickedInOrder(steps, i, j, k))
  {
    var prefix := steps[..|steps| - 1];
    if 0 <= i < |prefix| {
      assert steps[i] == prefix[i];
    }
    if 0 <= j < |prefix| {
      assert steps[j] == prefix[j];
    }
    if 0 <= k < |prefix| {
      assert steps[k] == prefix[k];
    }
  }

  /**
   * From outside a conversation, the type can be awaited only after a
   * `/registrar` on a photo, then a known corridor, then a room, in that
   * order, all within the conversation still open; while a room is awaited
   * the photo and the corridor came in that order, and while a corridor is
   * awaited a photo was picked.
   */
  lemma NoStepSkipped(steps: seq<(Update, bool)>)
    ensures Run(Inactive, steps) == AwaitCorridor ==>
      exists i :: Current(steps, i) && PicksPhoto(steps[i].0) && Run(Inactive, steps[..i]) == Inactive
    ensures Run(Inactive, steps) == AwaitRoom ==>
      exists i, j :: PhotoThenCorridor(steps, i, j) && Current(steps, i)
        && Run(Inactive, steps[..i]) == Inactive && Run(Inactive, steps[..j]) == AwaitCorridor
    ensures Run(Inactive, steps) == AwaitType ==>
      exists i, j, k :: PickedInOrder(steps, i, j, k) && Current(steps, i)
        && Run(Inactive, steps[..i]) == Inactive && Run(Inactive, steps[..j]) == AwaitCorridor
        && Run(Inactive, steps[..k]) == AwaitRoom
  {
    var i, j, k := PickIndices(steps);
  }
}
