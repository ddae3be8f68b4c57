/** The `/note add|list|del` command (app/handlers/notes.py). */
module NotesHandler {
  import opened Wrappers
  import opened PyStr
  import opened TextUtils
  import opened Db

  /** What `cmd_note` answers. */
  datatype NoteReply =
    | Usage
    | AddUsage
    | Added(id: int)
    | NoNotes
    | Listing(text: string)
    | DelUsage
    | BadId
    | Deleted
    | NotFound
    | UnknownSub
    | Raised
  {
    /**
     * The message text sent to the chat. `Raised` stands for the handler
     * raising before it replies, so it has no text.
     */
    function Text(): string
      requires !Raised?
    {
      match this
      case Usage => "Использование:\n/note add <текст>\n/note list\n/note del <id>"
      case AddUsage => "Добавление заметки: /note add <текст>"
      case Added(id) => "Заметка добавлена: id=" + IntToString(id)
      case NoNotes => "Заметок пока нет. Добавь: /note add <текст>"
      case Listing(text) => text
      case DelUsage => "Удаление: /note del <id>"
      case BadId => "id должен быть числом. Пример: /note del 3"
      case Deleted => "Удалено."
      case NotFound => "Не найдено (проверь id)."
      case UnknownSub => "Неизвестная подкоманда. Используй: add, list или del."
    }
  }

  /** The command `context.args` asks for, before the table is touched. */
  datatype NoteCommand =
    | NoArgs
    | Add(text: string)
    | AddEmpty
    | List
    | Del(noteId: int)
    | DelOutOfRange(noteId: int)
    | DelMissing
    | DelNotInt
    | Unknown

  /**
   * The dispatch of `cmd_note`: the first argument picks the subcommand;
   * `add` takes the rest joined by spaces and stripped; `del` parses the
   * second argument as an integer, which `delete_note` can bind only when
   * it fits in 64 bits.
   */
  function ParseNote(args: seq<string>): (c: NoteCommand)
    ensures c.NoArgs? <==> args == []
    ensures c.Add? ==> c.text != [] && Trimmed(c.text) && c.text == Strip(Join(" ", args[1..]))
    ensures c.AddEmpty? ==> Strip(Join(" ", args[1..])) == []
    ensures c.Del? ==> |args| >= 2 && ParseInt(args[1]) == Some(c.noteId) && FitsInteger(c.noteId)
    ensures c.DelOutOfRange? ==> |args| >= 2 && ParseInt(args[1]) == Some(c.noteId) && !FitsInteger(c.noteId)
    ensures c.DelMissing? ==> |args| < 2
    ensures c.DelNotInt? ==> |args| >= 2 && ParseInt(args[1]).None?
    ensures args != [] ==> (StripLower(args[0]) == "add" <==> c.Add? || c.AddEmpty?)
    ensures args != [] ==> (StripLower(args[0]) == "list" <==> c.List?)
    ensures args != [] ==> (StripLower(args[0]) == "del" <==> c.Del? || c.DelOutOfRange? || c.DelMissing? || c.DelNotInt?)
  {
    if args == [] then NoArgs
    else
      var sub := StripLower(args[0]);
      if sub == "add" then
        var text := Strip(Join(" ", args[1..]));
        StripTrimmed(Join(" ", args[1..]));
        if text == [] then AddEmpty else Add(text)
      else if sub == "list" then List
      else if sub == "del" then
        if |args| < 2 then DelMissing
        else
          match ParseInt(args[1])
          case None => DelNotInt
          case Some(n) => if FitsInteger(n) then Del(n) else DelOutOfRange(n)
      else Unknown
  }

  /** The subcommand word is matched regardless of padding and letter case. */
  lemma SubcommandIgnoresPaddingAndCase(a: string, b: string, rest: seq<string>)
    requires StripLower(a) == StripLower(b)
    ensures ParseNote([a] + rest) == ParseNote([b] + rest)
  {
    assert ([a] + rest)[1..] == rest == ([b] + rest)[1..];
  }

  /** One line of the listing: `<id>) <text>  [<created_at>]`. */
  function NoteLine(row: NoteRow): (line: string)
    ensures line != [] && line[|line| - 1] == ']'
  {
    IntToString(row.id) + ") " + row.text + "  [" + row.createdAt + "]"
  }

  const ListHeader := "Последние заметки:"

  /** The listing's lines after its header. */
  function NoteLines(rows: seq<NoteRow>): (lines: seq<string>)
    ensures |lines| == |rows|
    ensures forall i :: 0 <= i < |rows| ==> lines[i] == NoteLine(rows[i])
  {
    seq(|rows|, i requires 0 <= i < |rows| => NoteLine(rows[i]))
  }

  /** The `list` branch's loop: the header, then one line per row, in order. */
  method BuildLines(rows: seq<NoteRow>) returns (lines: seq<string>)
    ensures lines == [ListHeader] + NoteLines(rows)
  {
    lines := [ListHeader];
    for k := 0 to |rows|
      invariant lines == [ListHeader] + NoteLines(rows[..k])
    {
      assert NoteLines(rows[..k + 1]) == NoteLines(rows[..k]) + [NoteLine(rows[k])];
      lines := lines + [NoteLine(rows[k])];
    }
    assert rows[..|rows|] == rows;
  }

  /** The reply to `list` for the rows `list_notes` returned. */
  function ListReply(rows: seq<NoteRow>): NoteReply {
    if rows == [] then NoNotes else Listing(JoinLines([ListHeader] + NoteLines(rows)))
  }

  /**
   * `join_lines` strips nothing from a listing: the header starts with a
   * letter and every line ends with `]`, so the reply is exactly the
   * header and the note lines joined by newlines.
   */
  lemma ListingIsJoined(rows: seq<NoteRow>)
    requires rows != []
    ensures ListReply(rows) == Listing(Join("\n", [ListHeader] + NoteLines(rows)))
  {
    var lines := [ListHeader] + NoteLines(rows);
    assert lines[0] == ListHeader && lines[|lines| - 1] == NoteLine(rows[|rows| - 1]);
    JoinLinesKeepsLines(lines);
  }

  /**
   * `cmd_note`. The clock reading `now` stands for the ISO timestamp of
   * the moment the note is added. An id too large for SQLite makes the
   * handler raise: the reply is `Raised` and the table is left as it was.
   */
  method CmdNote(table: NotesTable, user: Option<int>, args: seq<string>, now: string) returns (reply: NoteReply)
    requires table.Valid()
    modifies table
    ensures table.Valid()
    ensures match ParseNote(args)
      case Add(text) =>
        && reply == Added(old(table.lastId) + 1)
        && table.lastId == old(table.lastId) + 1
        && table.notes == old(table.notes)[table.lastId := Note(UserIdOf(user), now, text)]
      case Del(noteId) =>
        && reply == (if Owns(old(table.notes), UserIdOf(user), noteId) then Deleted else NotFound)
        && table.notes == (if reply == Deleted then old(table.notes) - {noteId} else old(table.notes))
        && table.lastId == old(table.lastId)
      case List =>
        && reply == ListReply(ListedRows(table.notes, table.lastId, UserIdOf(user), 10))
        && table.notes == old(table.notes) && table.lastId == old(table.lastId)
      case NoArgs => reply == Usage && table.notes == old(table.notes) && table.lastId == old(table.lastId)
      case AddEmpty => reply == AddUsage && table.notes == old(table.notes) && table.lastId == old(table.lastId)
      case DelMissing => reply == DelUsage && table.notes == old(table.notes) && table.lastId == old(table.lastId)
      case DelNotInt => reply == BadId && table.notes == old(table.notes) && table.lastId == old(table.lastId)
      case DelOutOfRange(_) => reply == Raised && table.notes == old(table.notes) && table.lastId == old(table.lastId)
      case Unknown => reply == UnknownSub && table.notes == old(table.notes) && table.lastId == old(table.lastId)
  {
    if args == [] {
      return Usage;
    }
    var sub := StripLower(args[0]);
    var userId := UserIdOf(user);

    if sub == "add" {
      var text := Strip(Join(" ", args[1..]));
      if text == [] {
        return AddUsage;
      }
      var noteId := table.AddNote(userId, now, text);
      return Added(noteId);
    }

    if sub == "list" {
      var rows := table.ListNotes(userId, 10);
      if rows == [] {
        return NoNotes;
      }
      var lines := BuildLines(rows);
      return Listing(JoinLines(lines));
    }

    if sub == "del" {
      if |args| < 2 {
        return DelUsage;
      }
      var parsed := ParseInt(args[1]);
      if parsed.None? {
        return BadId;
      }
      if !FitsInteger(parsed.value) {
        // sqlite3 raises OverflowError while binding the id.
        return Raised;
      }
      var ok := table.DeleteNote(userId, parsed.value);
      return if ok then Deleted else NotFound;
    }

    return UnknownSub;
  }
}
