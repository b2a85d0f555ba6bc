/**
 * main.py: the photo-log bot that keeps its records in memory.
 *
 * `/start` offers the corridors; each button's callback data is a list of
 * fields joined by `|`: `corredor|<corridor>`, `sala|<corridor>|<room>`,
 * `foto|<corridor>|<room>|<type>`. The last kind stores the selection in
 * `user_data`; the next photo the user sends is then captioned, appended to
 * the in-memory `registros` dictionary and sent back. `/ver` lists how many
 * photos each room holds.
 *
 * Telegram calls become returned `Reply` values; the clock reading, the user,
 * the photo's sizes and whether sending it back went through are parameters.
 */
module MainBot {
  import opened Wrappers
  import opened Text
  import opened Clock
  import opened Dicts
  import opened Telegram

  // ---------------------------------------------------------------------
  // The corridor catalog: corredores
  // ---------------------------------------------------------------------

  /** The rooms of a corridor: `range(lo, hi)`, written with two digits when `padded`. */
  datatype RoomRange = RoomRange(lo: nat, hi: nat, padded: bool)

  /** `f"Sala {i:02}"` when padded, `f"Sala {i}"` otherwise. */
  function RoomLabel(n: nat, padded: bool): string {
    "Sala " + (if padded then ZeroPad(n, 2) else Decimal(n))
  }

  /** A room name for room `n`: "Sala " followed by digits that read back as `n`. */
  predicate NamesRoom(name: string, n: nat) {
    |name| > 5 && name[..5] == "Sala " && AllDigits(name[5..]) && ValueOf(name[5..]) == n
  }

  /**
   * The list comprehension that builds a corridor's room names: one name per
   * number of `range(lo, hi)`, in order, so that no name repeats.
   */
  function Salas(r: RoomRange): (labels: seq<string>)
    ensures |labels| == if r.lo < r.hi then r.hi - r.lo else 0
    ensures forall k :: 0 <= k < |labels| ==> NamesRoom(labels[k], r.lo + k)
    ensures forall j, k :: 0 <= j < k < |labels| ==> labels[j] != labels[k]
  {
    var labels := seq(if r.lo < r.hi then r.hi - r.lo else 0, k requires 0 <= k => RoomLabel(r.lo + k, r.padded));
    SalasNameRooms(r, labels);
    labels
  }

  /** The k-th name of the comprehension is room `lo + k`'s label. */
  lemma {:induction false} SalasAt(r: RoomRange, k: nat)
    requires k < |Salas(r)|
    ensures Salas(r)[k] == RoomLabel(r.lo + k, r.padded)
  {
  }

  lemma {:induction false} SalasNameRooms(r: RoomRange, labels: seq<string>)
    requires forall k :: 0 <= k < |labels| ==> labels[k] == RoomLabel(r.lo + k, r.padded)
    ensures forall k :: 0 <= k < |labels| ==> NamesRoom(labels[k], r.lo + k)
    ensures forall j, k :: 0 <= j < k < |labels| ==> labels[j] != labels[k]
  {
    forall k | 0 <= k < |labels| ensures NamesRoom(labels[k], r.lo + k) {
      RoomLabelValue(r.lo + k, r.padded);
    }
  }

  /** The corridors in the dictionary's order, each with the range its rooms are built from. */
  const Corredores: seq<(string, RoomRange)> := [
    ("Corredor A Térreo", RoomRange(1, 20, true)),
    ("Corredor B Térreo", RoomRange(41, 52, false)),
    ("Corredor C Térreo", RoomRange(80, 89, false)),
    ("Corredor A 1º Piso", RoomRange(20, 41, false)),
    ("Corredor B 1º Piso", RoomRange(53, 69, false)),
    ("Corredor C 1º Piso", RoomRange(89, 100, false))
  ]

  /** `corredores[corredor]`, `None` where Python raises `KeyError`. */
  function CorridorRooms(corredor: string): Option<seq<string>> {
    match Find(Corredores, corredor)
    case Some(r) => Some(Salas(r))
    case None => None
  }

  /** The catalog's names are pairwise distinct: they differ in length or in the corridor letter. */
  lemma CatalogNamesDistinct()
    ensures forall i, j :: 0 <= i < j < |Corredores| ==> Corredores[i].0 != Corredores[j].0
  {
    var shape := [(17, 'A'), (17, 'B'), (17, 'C'), (18, 'A'), (18, 'B'), (18, 'C')];
    forall i | 0 <= i < |Corredores| ensures |Corredores[i].0| > 9 && (|Corredores[i].0|, Corredores[i].0[9]) == shape[i] { }
  }

  /** Each catalog corridor leads to the rooms of its own range. */
  lemma {:induction false} CatalogLookup(i: nat)
    requires i < |Corredores|
    ensures CorridorRooms(Corredores[i].0) == Some(Salas(Corredores[i].1))
  {
    CatalogNamesDistinct();
    FindFirst(Corredores, i);
  }

  /**
   * A room name is "Sala " and the room number in decimal, two digits wide
   * where padded, so it reads back as the number.
   */
  lemma {:induction false} RoomLabelValue(n: nat, padded: bool)
    ensures NamesRoom(RoomLabel(n, padded), n)
    ensures padded && n < 100 ==> |RoomLabel(n, padded)| == 7
  {
    var name := RoomLabel(n, padded);
    var digits := if padded then ZeroPad(n, 2) else Decimal(n);
    assert name[..5] == "Sala " && name[5..] == digits;
    if padded {
      ZeroPadValue(n, 2);
      if n < 100 {
        assert Pow10(2) == 100;
        ZeroPadRoundTrip(n, 2);
      }
    } else {
      DecimalRoundTrip(n);
    }
  }

  /**
   * "Corredor A Térreo" has the 19 rooms "Sala 01" to "Sala 19"; the other
   * corridors have 11, 9, 21, 16 and 11 rooms, written without padding.
   */
  lemma CatalogRooms()
    ensures |Salas(Corredores[0].1)| == 19 && |Salas(Corredores[1].1)| == 11 && |Salas(Corredores[2].1)| == 9
    ensures |Salas(Corredores[3].1)| == 21 && |Salas(Corredores[4].1)| == 16 && |Salas(Corredores[5].1)| == 11
    ensures Salas(Corredores[0].1)[0] == "Sala 01" && Salas(Corredores[0].1)[18] == "Sala 19"
    ensures Salas(Corredores[5].1)[10] == "Sala 99"
  {
    SalasAt(Corredores[0].1, 0);
    SalasAt(Corredores[0].1, 18);
    SalasAt(Corredores[5].1, 10);
    assert Decimal(1) == "1" && Decimal(19) == "19" && Decimal(99) == "99";
    assert ZeroPad(1, 2) == "01" && ZeroPad(19, 2) == "19";
  }

  /** No room name contains the field separator. */
  lemma {:induction false} RoomLabelPipeFree(n: nat, padded: bool)
    ensures '|' !in RoomLabel(n, padded)
  {
    RoomLabelValue(n, padded);
    var name := RoomLabel(n, padded);
    assert name == name[..5] + name[5..];
    forall c | c in name[5..] ensures c != '|' {
      var k :| 0 <= k < |name[5..]| && name[5..][k] == c;
    }
  }

  /** No corridor name contains the field separator. */
  lemma {:induction false} CorridorNamePipeFree(i: nat)
    requires i < |Corredores|
    ensures '|' !in Corredores[i].0
  {
  }

  // ---------------------------------------------------------------------
  // Callback data: fields joined by '|'
  // ---------------------------------------------------------------------

  /** What a button asks for: a corridor's rooms, a room's two types, or a photo of one type. */
  datatype Callback =
    | PickCorridor(corredor: string)
    | PickRoom(corredor: string, sala: string)
    | PickPhoto(corredor: string, sala: string, tipo: string)

  function Fields(cb: Callback): (fs: seq<string>)
    ensures |fs| >= 2
  {
    match cb
    case PickCorridor(c) => ["corredor", c]
    case PickRoom(c, s) => ["sala", c, s]
    case PickPhoto(c, s, t) => ["foto", c, s, t]
  }

  /** The callback data a button carries: `f"corredor|{c}"`, `f"sala|{c}|{s}"`, `f"foto|{c}|{s}|{t}"`. */
  function Encode(cb: Callback): string {
    Join(Fields(cb), '|')
  }

  /** Whether no field of the callback contains the separator. */
  predicate PipeFree(cb: Callback) {
    SeparatorFree(Fields(cb), '|')
  }

  /**
   * How `button_handler` reads `query.data.split("|")`: a callback, too few
   * fields for its kind (`IndexError`), or a first field it does not handle.
   */
  datatype Decoded = Parsed(cb: Callback) | TooFewFields | OtherKind

  function Decode(data: string): Decoded {
    var parts := Split(data, '|');
    if parts[0] == "corredor" then
      (if |parts| < 2 then TooFewFields else Parsed(PickCorridor(parts[1])))
    else if parts[0] == "sala" then
      (if |parts| < 3 then TooFewFields else Parsed(PickRoom(parts[1], parts[2])))
    else if parts[0] == "foto" then
      (if |parts| < 4 then TooFewFields else Parsed(PickPhoto(parts[1], parts[2], parts[3])))
    else OtherKind
  }

  /** `f"corredor|{c}"`. */
  lemma {:induction false} EncodeCorridorLayout(c: string)
    ensures Encode(PickCorridor(c)) == "corredor|" + c
  {
    JoinFirst("corredor", [c], '|');
    assert ["corredor", c] == ["corredor"] + [c];
  }

  /** `f"sala|{c}|{s}"`. */
  lemma {:induction false} EncodeRoomLayout(c: string, s: string)
    ensures Encode(PickRoom(c, s)) == "sala|" + c + "|" + s
  {
    JoinThree("sala", c, s, '|');
  }

  /** `f"foto|{c}|{s}|{t}"`. */
  lemma {:induction false} EncodePhotoLayout(c: string, s: string, t: string)
    ensures Encode(PickPhoto(c, s, t)) == "foto|" + c + "|" + s + "|" + t
  {
    JoinFour("foto", c, s, t, '|');
  }

  /** A button whose fields carry no separator decodes to what it was built from. */
  lemma {:induction false} DecodeEncode(cb: Callback)
    requires PipeFree(cb)
    ensures Decode(Encode(cb)) == Parsed(cb)
  {
    SplitJoin(Fields(cb), '|');
  }

  /** Data that decodes with exactly its kind's number of fields is the encoding of what it decodes to. */
  lemma {:induction false} EncodeDecode(data: string)
    requires Decode(data).Parsed? && |Split(data, '|')| == |Fields(Decode(data).cb)|
    ensures Encode(Decode(data).cb) == data
  {
    var parts := Split(data, '|');
    assert Fields(Decode(data).cb) == parts;
    JoinSplit(data, '|');
  }

  // ---------------------------------------------------------------------
  // /start and button_handler
  // ---------------------------------------------------------------------

  const StartText: string := "Selecione o corredor:"
  const StartErrorText: string := "❌ Ocorreu um erro. Tente novamente mais tarde."
  const ButtonErrorText: string := "❌ Ocorreu um erro ao processar sua solicitação."

  /** One button per corridor, in the catalog's order, carrying `corredor|<name>`. */
  function StartKeyboard(): seq<Button> {
    seq(|Corredores|, i requires 0 <= i < |Corredores| => Button(Corredores[i].0, Encode(PickCorridor(Corredores[i].0))))
  }

  /** One button per room of the corridor, carrying `sala|<corridor>|<room>`. */
  function RoomKeyboard(corredor: string, salas: seq<string>): seq<Button> {
    seq(|salas|, k requires 0 <= k < |salas| => Button(salas[k], Encode(PickRoom(corredor, salas[k]))))
  }

  /** The two photo types, carrying `foto|<corridor>|<room>|Chegada` and `...|Saída`. */
  function TypeKeyboard(corredor: string, sala: string): seq<Button> {
    [ Button("📷 Chegada", Encode(PickPhoto(corredor, sala, "Chegada"))),
      Button("📷 Saída", Encode(PickPhoto(corredor, sala, "Saída"))) ]
  }

  /**
   * `/start`: the corridor menu, one button per catalog corridor in the
   * dictionary's order, each carrying data that decodes to that corridor; or
   * the apology when sending it fails.
   */
  function StartReply(delivered: bool): (r: Reply)
    ensures delivered ==> r.Menu? && r.text == StartText && |r.buttons| == |Corredores|
    ensures delivered ==> forall i :: 0 <= i < |Corredores| ==>
      r.buttons[i].text == Corredores[i].0 && Decode(r.buttons[i].data) == Parsed(PickCorridor(Corredores[i].0))
    ensures !delivered ==> r == Message(StartErrorText)
  {
    StartKeyboardDecodes();
    if delivered then Menu(StartText, StartKeyboard()) else Message(StartErrorText)
  }

  /** Every `/start` button decodes to the corridor it is captioned with. */
  lemma StartKeyboardDecodes()
    ensures forall i :: 0 <= i < |Corredores| ==>
      StartKeyboard()[i].text == Corredores[i].0 && Decode(StartKeyboard()[i].data) == Parsed(PickCorridor(Corredores[i].0))
  {
    forall i | 0 <= i < |Corredores|
      ensures StartKeyboard()[i].text == Corredores[i].0 && Decode(StartKeyboard()[i].data) == Parsed(PickCorridor(Corredores[i].0))
    {
      var c := Corredores[i].0;
      assert StartKeyboard()[i] == Button(c, Encode(PickCorridor(c)));
      CorridorNamePipeFree(i);
      assert PipeFree(PickCorridor(c));
      DecodeEncode(PickCorridor(c));
    }
  }

  /**
   * What `button_handler` does with a callback's data: show a corridor's
   * rooms, show a room's two types, ask for the photo, fail (a missing field
   * or an unknown corridor), or ignore a first field it does not handle.
   */
  datatype Action =
    | ShowRooms(corredor: string, salas: seq<string>)
    | ShowTypes(corredor: string, sala: string)
    | AskPhoto(corredor: string, sala: string, tipo: string)
    | Fail
    | Ignore
  {
    /** The actions that end in `query.edit_message_text`. */
    predicate Edits() {
      ShowRooms? || ShowTypes? || AskPhoto?
    }
  }

  function Act(data: string): Action {
    match Decode(data)
    case TooFewFields => Fail
    case OtherKind => Ignore
    case Parsed(PickCorridor(c)) => (match CorridorRooms(c) case Some(salas) => ShowRooms(c, salas) case None => Fail)
    case Parsed(PickRoom(c, s)) => ShowTypes(c, s)
    case Parsed(PickPhoto(c, s, t)) => AskPhoto(c, s, t)
  }

  /** The message an action leaves on the screen when every call to Telegram goes through. */
  function Shown(a: Action): Reply {
    match a
    case ShowRooms(c, salas) => Menu("Salas do " + c + ":", RoomKeyboard(c, salas))
    case ShowTypes(c, s) => Menu(s + " - Selecione o tipo de foto:", TypeKeyboard(c, s))
    case AskPhoto(c, s, t) => Message("Envie a foto da **" + s + " (" + t + ")** agora:")
    case Fail => Message(ButtonErrorText)
    case Ignore => NoReply
  }

  /** `user_data` after asking for a photo: the three choices stored under their keys. */
  function Selected(m: map<string, string>, c: string, s: string, t: string): (m': map<string, string>)
    ensures "corredor" in m' && "sala" in m' && "tipo" in m'
    ensures m'["corredor"] == c && m'["sala"] == s && m'["tipo"] == t
    ensures forall k :: k in m && k !in {"corredor", "sala", "tipo"} ==> k in m' && m'[k] == m[k]
  {
    m["corredor" := c]["sala" := s]["tipo" := t]
  }

  /**
   * `button_handler`. `answered` says whether `query.answer()` went through
   * and `edited` whether `query.edit_message_text` did; either failing lands in
   * the handler's `except`, which sends the apology. The photo choices are
   * stored before the edit, so they stay stored when it fails.
   */
  method ButtonHandler(ud: UserData, data: string, answered: bool, edited: bool) returns (r: Reply)
    modifies ud
    ensures r == if !answered || (Act(data).Edits() && !edited) then Message(ButtonErrorText) else Shown(Act(data))
    ensures ud.entries == if answered && Act(data).AskPhoto?
      then Selected(old(ud.entries), Act(data).corredor, Act(data).sala, Act(data).tipo)
      else old(ud.entries)
  {
    if !answered {
      return Message(ButtonErrorText);
    }
    var a := Act(data);
    if a.AskPhoto? {
      ud.Set("corredor", a.corredor);
      ud.Set("sala", a.sala);
      ud.Set("tipo", a.tipo);
    }
    if a.Edits() && !edited {
      r := Message(ButtonErrorText);
    } else {
      r := Shown(a);
    }
  }

  /** Every button of the `/start` menu opens the rooms of its own corridor. */
  lemma {:induction false} StartLeadsToRooms(i: nat)
    requires i < |Corredores|
    ensures |StartKeyboard()| == |Corredores| && StartKeyboard()[i].text == Corredores[i].0
    ensures Act(StartKeyboard()[i].data) == ShowRooms(Corredores[i].0, Salas(Corredores[i].1))
  {
    var c := Corredores[i].0;
    assert StartKeyboard()[i] == Button(c, Encode(PickCorridor(c)));
    CorridorNamePipeFree(i);
    assert PipeFree(PickCorridor(c));
    DecodeEncode(PickCorridor(c));
    CatalogLookup(i);
  }

  /** Only the first corridor pads its room numbers, and its numbers stay below 100. */
  lemma {:induction false} CatalogPadding(i: nat)
    requires i < |Corredores|
    ensures Corredores[i].1.padded ==> Corredores[i].1.hi <= 100
  {
  }

  /** Every room button of a catalog corridor opens the two types of its own room. */
  lemma {:induction false} RoomLeadsToTypes(i: nat, k: nat)
    requires i < |Corredores| && k < |Salas(Corredores[i].1)|
    ensures var salas := Salas(Corredores[i].1);
      && |RoomKeyboard(Corredores[i].0, salas)| == |salas|
      && RoomKeyboard(Corredores[i].0, salas)[k].text == salas[k]
      && Act(RoomKeyboard(Corredores[i].0, salas)[k].data) == ShowTypes(Corredores[i].0, salas[k])
  {
    var c, r := Corredores[i].0, Corredores[i].1;
    var s := Salas(r)[k];
    assert RoomKeyboard(c, Salas(r))[k] == Button(s, Encode(PickRoom(c, s)));
    CatalogPadding(i);
    RoomLabelPipeFree(r.lo + k, r.padded);
    CorridorNamePipeFree(i);
    assert PipeFree(PickRoom(c, s));
    DecodeEncode(PickRoom(c, s));
  }

  /** The two type buttons ask for a photo of their room, of type "Chegada" and "Saída". */
  lemma {:induction false} TypeLeadsToPhoto(c: string, s: string)
    requires '|' !in c && '|' !in s
    ensures |TypeKeyboard(c, s)| == 2
    ensures Act(TypeKeyboard(c, s)[0].data) == AskPhoto(c, s, "Chegada")
    ensures Act(TypeKeyboard(c, s)[1].data) == AskPhoto(c, s, "Saída")
  {
    assert PipeFree(PickPhoto(c, s, "Chegada"));
    assert PipeFree(PickPhoto(c, s, "Saída"));
    DecodeEncode(PickPhoto(c, s, "Chegada"));
    DecodeEncode(PickPhoto(c, s, "Saída"));
  }

  // ---------------------------------------------------------------------
  // The registros dictionary and photo_handler
  // ---------------------------------------------------------------------

  /** Rooms of one corridor in insertion order, each with its captions in arrival order. */
  type Rooms = seq<(string, seq<string>)>

  /** The captions stored for a room: `registros[corredor][sala]`, empty where either key is missing. */
  function Captions(items: seq<(string, Rooms)>, corredor: string, sala: string): seq<string> {
    match Find(items, corredor)
    case Some(salas) => Find(salas, sala).GetOr([])
    case None => []
  }

  /**
   * `registros` after storing a caption: the corridor gets an empty
   * dictionary if it had none, the room an empty list if it had none, and the
   * caption is appended to that list.
   */
  function Recorded(items: seq<(string, Rooms)>, corredor: string, sala: string, caption: string): seq<(string, Rooms)> {
    var salas := Find(items, corredor).GetOr([]);
    Put(items, corredor, Put(salas, sala, Find(salas, sala).GetOr([]) + [caption]))
  }

  /** Every dictionary in `registros` has distinct keys. */
  ghost predicate WellFormed(items: seq<(string, Rooms)>) {
    UniqueKeys(items) && forall e :: e in items ==> UniqueKeys(e.1)
  }

  /** The module-level `registros`: corridor → room → captions. */
  class Registros {
    var items: seq<(string, Rooms)>

    ghost predicate Valid()
      reads this
    {
      WellFormed(items)
    }

    constructor ()
      ensures Valid() && items == []
    {
      items := [];
    }

    /** The three steps of `photo_handler` that store a caption. */
    method Append(corredor: string, sala: string, caption: string)
      requires Valid()
      modifies this
      ensures Valid()
      ensures items == Recorded(old(items), corredor, sala, caption)
    {
      ghost var before, salas0 := items, Find(items, corredor).GetOr([]);
      if Find(items, corredor).None? {
        items := Put(items, corredor, []);
        FindPut(before, corredor, [], corredor);
      }
      var salas := Find(items, corredor).value;
      assert salas == salas0;
      ghost var fotos0, between := Find(salas, sala).GetOr([]), items;
      if Find(salas, sala).None? {
        salas := Put(salas, sala, []);
        FindPut(salas0, sala, [], sala);
        items := Put(items, corredor, salas);
      }
      var fotos := Find(salas, sala).value;
      assert fotos == fotos0;
      var rooms := Put(salas, sala, fotos + [caption]);
      items := Put(items, corredor, rooms);
      assert rooms == Put(salas0, sala, fotos0 + [caption]) by {
        if salas != salas0 { PutPut(salas0, sala, [], fotos0 + [caption]); }
      }
      assert items == Put(before, corredor, rooms) by {
        if Find(salas0, sala).None? { PutPut(between, corredor, salas, rooms); }
        if Find(before, corredor).None? { PutPut(before, corredor, [], rooms); }
      }
      RecordedWellFormed(before, corredor, sala, caption);
    }
  }

  /** Storing a caption keeps the keys of every dictionary distinct. */
  lemma {:induction false} RecordedWellFormed(items: seq<(string, Rooms)>, corredor: string, sala: string, caption: string)
    requires WellFormed(items)
    ensures WellFormed(Recorded(items, corredor, sala, caption))
  {
    var salas := Find(items, corredor).GetOr([]);
    var rooms := Put(salas, sala, Find(salas, sala).GetOr([]) + [caption]);
    assert UniqueKeys(salas) by {
      if Find(items, corredor).Some? { assert (corredor, salas) in items; }
    }
    PutUnique(salas, sala, Find(salas, sala).GetOr([]) + [caption]);
    PutUnique(items, corredor, rooms);
    PutItems(items, corredor, rooms);
  }

  /** Storing a caption appends it to its own room and leaves every other room's captions alone. */
  lemma {:induction false} RecordedCaptions(items: seq<(string, Rooms)>, corredor: string, sala: string, caption: string,
                                            c: string, s: string)
    ensures Captions(Recorded(items, corredor, sala, caption), c, s)
      == if c == corredor && s == sala then Captions(items, c, s) + [caption] else Captions(items, c, s)
  {
    var salas := Find(items, corredor).GetOr([]);
    var rooms := Put(salas, sala, Find(salas, sala).GetOr([]) + [caption]);
    FindPut(items, corredor, rooms, c);
    FindPut(salas, sala, Find(salas, sala).GetOr([]) + [caption], s);
  }

  /** A corridor or room seen for the first time is added at the end; known ones keep their place. */
  lemma {:induction false} RecordedOrder(items: seq<(string, Rooms)>, corredor: string, sala: string, caption: string)
    ensures Keys(Recorded(items, corredor, sala, caption))
      == if corredor in Keys(items) then Keys(items) else Keys(items) + [corredor]
    ensures var salas := Find(items, corredor).GetOr([]);
      Find(Recorded(items, corredor, sala, caption), corredor).Some?
      && Keys(Find(Recorded(items, corredor, sala, caption), corredor).value)
         == if sala in Keys(salas) then Keys(salas) else Keys(salas) + [sala]
  {
    var salas := Find(items, corredor).GetOr([]);
    var rooms := Put(salas, sala, Find(salas, sala).GetOr([]) + [caption]);
    KeysPut(items, corredor, rooms);
    FindPut(items, corredor, rooms, corredor);
    KeysPut(salas, sala, Find(salas, sala).GetOr([]) + [caption]);
  }

  const SelectFirstText: string := "\U{26A0}\U{FE0F} Por favor, selecione uma sala primeiro usando o menu."
  const PhotoErrorText: string := "❌ Falha ao processar a foto. Tente novamente."

  /** `all([corredor, sala, tipo])` over `user_data.get(...)`: each key present with a non-empty value. */
  predicate SelectionComplete(m: map<string, string>) {
    && "corredor" in m && m["corredor"] != ""
    && "sala" in m && m["sala"] != ""
    && "tipo" in m && m["tipo"] != ""
  }

  /** The caption: type, who sent it, where, and the clock reading as `%d/%m/%Y %H:%M`. */
  function Caption(tipo: string, firstName: string, corredor: string, sala: string, now: DateTime): string
    requires Valid(now)
  {
    tipo + " registrada por " + firstName + "\n📍 " + corredor + " - " + sala + "\n🕒 " + Stamp(now)
  }

  /** A caption starts with the photo's type and ends with a stamp that reads back as the clock reading. */
  lemma {:induction false} CaptionParts(tipo: string, firstName: string, corredor: string, sala: string, now: DateTime)
    requires Valid(now)
    ensures var caption := Caption(tipo, firstName, corredor, sala, now);
      && |caption| >= |tipo| + 16 && caption[..|tipo|] == tipo
      && ParseStamp(caption[|caption| - 16..]) == Some(now)
  {
    var caption := Caption(tipo, firstName, corredor, sala, now);
    var stamp := Stamp(now);
    var head := tipo + " registrada por " + firstName + "\n📍 " + corredor + " - " + sala + "\n🕒 ";
    assert caption == head + stamp;
    assert caption[..|tipo|] == tipo by {
      assert head[..|tipo|] == tipo;
    }
    assert caption[|caption| - 16..] == stamp;
    StampRoundTrip(now);
  }

  /** Following the menu from `/start` leaves a complete selection of a catalog corridor and one of its rooms. */
  lemma {:induction false} MenuSelectionComplete(m: map<string, string>, i: nat, k: nat, j: nat)
    requires i < |Corredores| && k < |Salas(Corredores[i].1)| && j < 2
    ensures var c, s := Corredores[i].0, Salas(Corredores[i].1)[k];
      var a := Act(TypeKeyboard(c, s)[j].data);
      && a.AskPhoto? && a.corredor == c && a.sala == s
      && SelectionComplete(Selected(m, a.corredor, a.sala, a.tipo))
      && CorridorRooms(a.corredor) == Some(Salas(Corredores[i].1))
  {
    var c, r := Corredores[i].0, Corredores[i].1;
    var s := Salas(r)[k];
    assert '|' !in c && '|' !in s && s != "" by {
      CatalogPadding(i);
      RoomLabelPipeFree(r.lo + k, r.padded);
      CorridorNamePipeFree(i);
    }
    var t := if j == 0 then "Chegada" else "Saída";
    assert Act(TypeKeyboard(c, s)[j].data) == AskPhoto(c, s, t) by {
      TypeLeadsToPhoto(c, s);
    }
    assert SelectionComplete(Selected(m, c, s, t));
    CatalogLookup(i);
  }

  /**
   * `photo_handler`. `sizes` is `update.message.photo` (the largest last) and
   * `delivered` says whether the reply or `send_photo` went through. Without a
   * complete selection only the warning goes out. Otherwise the caption is
   * stored first; the choices are dropped from `user_data` only once the photo
   * has been sent back, and a missing photo or a failed send stores the
   * caption all the same and answers with the apology.
   */
  method PhotoHandler(ud: UserData, store: Registros, user: User, now: DateTime, sizes: seq<string>, delivered: bool)
    returns (r: Reply)
    requires store.Valid() && Valid(now)
    modifies ud, store
    ensures store.Valid()
    ensures !SelectionComplete(old(ud.entries)) ==>
      && store.items == old(store.items) && ud.entries == old(ud.entries)
      && r == Message(if delivered then SelectFirstText else PhotoErrorText)
    ensures SelectionComplete(old(ud.entries)) ==>
      var m := old(ud.entries);
      var caption := Caption(m["tipo"], user.firstName, m["corredor"], m["sala"], now);
      && store.items == Recorded(old(store.items), m["corredor"], m["sala"], caption)
      && (if |sizes| > 0 && delivered
          then ud.entries == m - {"corredor"} - {"sala"} - {"tipo"} && r == PhotoWithCaption(sizes[|sizes| - 1], caption)
          else ud.entries == m && r == Message(PhotoErrorText))
  {
    if !SelectionComplete(ud.entries) {
      return Message(if delivered then SelectFirstText else PhotoErrorText);
    }
    var corredor, sala, tipo := ud.entries["corredor"], ud.entries["sala"], ud.entries["tipo"];
    var caption := Caption(tipo, user.firstName, corredor, sala, now);
    store.Append(corredor, sala, caption);
    if |sizes| == 0 || !delivered {
      return Message(PhotoErrorText);
    }
    r := PhotoWithCaption(sizes[|sizes| - 1], caption);
    ud.Pop("corredor");
    ud.Pop("sala");
    ud.Pop("tipo");
  }

  // ---------------------------------------------------------------------
  // /ver
  // ---------------------------------------------------------------------

  const NoRecordsText: string := "📭 Nenhum registro encontrado."
  const ReportHeader: string := "📋 *Registros de Fotos:*\n\n"
  const VerErrorText: string := "❌ Ocorreu um erro ao recuperar os registros."

  /** The lines a loop appends, one per element, in order. */
  function Concat<T>(xs: seq<T>, line: T -> string): string {
    if xs == [] then "" else Concat(xs[..|xs| - 1], line) + line(xs[|xs| - 1])
  }

  /** The report's heading for a corridor. */
  function CorridorLine(corredor: string): string {
    "🏢 *" + corredor + "*\n"
  }

  /** A room and how many photos it holds. */
  function RoomLine(room: (string, seq<string>)): string {
    "  📌 " + room.0 + ": " + Decimal(|room.1|) + " foto(s)\n"
  }

  /** A corridor's heading followed by one line per room. */
  function Block(entry: (string, Rooms)): string {
    CorridorLine(entry.0) + Concat(entry.1, RoomLine)
  }

  /** What `/ver` sends when its reply goes through. */
  function Report(items: seq<(string, Rooms)>): string {
    if items == [] then NoRecordsText else ReportHeader + Concat(items, Block)
  }

  /** Appending lines for more elements extends the text and keeps what was there. */
  lemma {:induction false} ConcatAppend<T>(xs: seq<T>, ys: seq<T>, line: T -> string)
    ensures Concat(xs + ys, line) == Concat(xs, line) + Concat(ys, line)
    decreases |ys|
  {
    if ys == [] {
      assert xs + ys == xs;
    } else {
      var init := ys[..|ys| - 1];
      assert (xs + ys)[..|xs + ys| - 1] == xs + init;
      ConcatAppend(xs, init, line);
    }
  }

  /** The text is the lines before element i, element i's line, then the lines after it. */
  lemma {:induction false} ConcatAt<T>(xs: seq<T>, i: nat, line: T -> string)
    requires i < |xs|
    ensures Concat(xs, line) == Concat(xs[..i], line) + line(xs[i]) + Concat(xs[i + 1..], line)
  {
    assert xs == xs[..i] + [xs[i]] + xs[i + 1..];
    ConcatAppend(xs[..i] + [xs[i]], xs[i + 1..], line);
    ConcatAppend(xs[..i], [xs[i]], line);
    assert Concat([xs[i]], line) == line(xs[i]) by {
      assert [xs[i]][..0] == [];
    }
  }

  /** The report is the "no records" text exactly when nothing has been stored. */
  lemma {:induction false} ReportEmpty(items: seq<(string, Rooms)>)
    ensures Report(items) == NoRecordsText <==> items == []
  {
    if items != [] {
      assert Report(items)[0] != NoRecordsText[0];
    }
  }

  /** Every stored corridor appears in the report as its own block, in the dictionary's order. */
  lemma {:induction false} ReportShowsCorridor(items: seq<(string, Rooms)>, i: nat)
    requires i < |items|
    ensures Report(items)
      == ReportHeader + (Concat(items[..i], Block) + Block(items[i]) + Concat(items[i + 1..], Block))
  {
    ConcatAt(items, i, Block);
  }

  /** Every room of a corridor appears in its block with the number of captions it holds, in order. */
  lemma {:induction false} BlockShowsRoom(entry: (string, Rooms), j: nat)
    requires j < |entry.1|
    ensures Block(entry)
      == CorridorLine(entry.0) + (Concat(entry.1[..j], RoomLine) + RoomLine(entry.1[j]) + Concat(entry.1[j + 1..], RoomLine))
  {
    ConcatAt(entry.1, j, RoomLine);
  }

  /**
   * Regrouping a text built by appending. The lemma adds nothing to what
   * Dafny knows about sequences; calling it at one chosen place spares the
   * solver from searching for the regrouping itself.
   */
  lemma Regroup(a: string, b: string, c: string)
    ensures a + b + c == a + (b + c)
  {
  }

  /**
   * `/ver`: the loop over `registros.items()`. `delivered` says whether the
   * reply went through; if not, the handler's `except` sends the apology.
   */
  method Ver(store: Registros, delivered: bool) returns (r: Reply)
    ensures r == Message(if delivered then Report(store.items) else VerErrorText)
  {
    if !delivered {
      return Message(VerErrorText);
    }
    var items := store.items;
    if items == [] {
      return Message(NoRecordsText);
    }
    var msg := ReportHeader;
    var i := 0;
    while i < |items|
      invariant 0 <= i <= |items|
      invariant msg == ReportHeader + Concat(items[..i], Block)
    {
      var (corredor, salas) := items[i];
      ghost var done := msg;
      msg := AppendRoomLines(msg + CorridorLine(corredor), salas);
      Regroup(done, CorridorLine(corredor), Concat(salas, RoomLine));
      assert items[..i + 1][..i] == items[..i];
      Regroup(ReportHeader, Concat(items[..i], Block), Block(items[i]));
      i := i + 1;
    }
    assert items[..i] == items;
    r := Message(msg);
  }

  /** The inner loop of `/ver`: one line per room appended to the message. */
  method AppendRoomLines(start: string, salas: Rooms) returns (msg: string)
    ensures msg == start + Concat(salas, RoomLine)
  {
    msg := start;
    var j := 0;
    while j < |salas|
      invariant 0 <= j <= |salas|
      invariant msg == start + Concat(salas[..j], RoomLine)
    {
      Regroup(start, Concat(salas[..j], RoomLine), RoomLine(salas[j]));
      assert salas[..j + 1][..j] == salas[..j];
      msg := msg + RoomLine(salas[j]);
      j := j + 1;
    }
    assert salas[..j] == salas;
  }
}
