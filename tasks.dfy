/**
 * TaskWindow: the dockable window listing the task notices ("TODO",
 * "FIXME", ...) of all open text areas, and its table model.
 * Text areas and parsers are identities; the base ParserNoticeTableModel
 * and its update method are not part of this model, so the window records
 * the calls it makes to its collaborators in order.
 */
module Tasks {

  datatype TextArea = TextArea(id: nat)

  /** Identity of a parser object: notices are compared to taskParser by ==. */
  type ParserId = nat

  datatype Notice = Notice(parser: ParserId, line: int, message: string)

  datatype Icon = Icon(resource: string)

  /** One table row: icon, text area, 1-based line, message. */
  datatype Row = Row(icon: Icon, textArea: TextArea, line: int, message: string)

  /** The row for one notice: the line column is the 0-based notice line plus one. */
  function NoticeRow(icon: Icon, textArea: TextArea, n: Notice): Row {
    Row(icon, textArea, n.line + 1, n.message)
  }

  /** The rows addNoticesImpl appends for notices, in input order. */
  function TaskRows(icon: Icon, taskParser: ParserId, textArea: TextArea, notices: seq<Notice>): seq<Row> {
    if notices == [] then []
    else
      var last := notices[|notices| - 1];
      TaskRows(icon, taskParser, textArea, notices[..|notices| - 1])
        + (if last.parser == taskParser then [NoticeRow(icon, textArea, last)] else [])
  }

  /** How many notices come from the task parser. */
  function TaskCount(taskParser: ParserId, notices: seq<Notice>): nat {
    if notices == [] then 0
    else TaskCount(taskParser, notices[1..]) + (if notices[0].parser == taskParser then 1 else 0)
  }

  /** Rows for a concatenation are the rows for each part, in order. */
  lemma {:induction false} TaskRowsAppend(icon: Icon, taskParser: ParserId, textArea: TextArea, a: seq<Notice>, b: seq<Notice>)
    ensures TaskRows(icon, taskParser, textArea, a + b)
         == TaskRows(icon, taskParser, textArea, a) + TaskRows(icon, taskParser, textArea, b)
    decreases |b|
  {
    if b == [] {
      assert a + b == a;
    } else {
      var b' := b[..|b| - 1];
      assert (a + b)[..|a + b| - 1] == a + b';
      TaskRowsAppend(icon, taskParser, textArea, a, b');
    }
  }

  /** One row per task-parser notice, none for any other parser. */
  lemma {:induction false} TaskRowsCount(icon: Icon, taskParser: ParserId, textArea: TextArea, notices: seq<Notice>)
    ensures |TaskRows(icon, taskParser, textArea, notices)| == TaskCount(taskParser, notices) <= |notices|
    decreases |notices|
  {
    if notices != [] {
      var rest := notices[1..];
      assert notices == [notices[0]] + rest;
      TaskRowsAppend(icon, taskParser, textArea, [notices[0]], rest);
      assert [notices[0]][..0] == [];
      TaskRowsCount(icon, taskParser, textArea, rest);
    }
  }

  /** Notices from other parsers alone give no rows. */
  lemma {:induction false} TaskRowsOtherParsers(icon: Icon, taskParser: ParserId, textArea: TextArea, notices: seq<Notice>)
    requires forall i :: 0 <= i < |notices| ==> notices[i].parser != taskParser
    ensures TaskRows(icon, taskParser, textArea, notices) == []
    decreases |notices|
  {
    if notices != [] {
      TaskRowsOtherParsers(icon, taskParser, textArea, notices[..|notices| - 1]);
    }
  }

  /**
   * Every row carries the window's icon and the text area given, and is the
   * projection of some task-parser notice: its line plus one and its message
   * unchanged.
   */
  lemma {:induction false} TaskRowsFromTaskNotices(icon: Icon, taskParser: ParserId, textArea: TextArea, notices: seq<Notice>)
    ensures forall k :: 0 <= k < |TaskRows(icon, taskParser, textArea, notices)| ==>
      var row := TaskRows(icon, taskParser, textArea, notices)[k];
      row.icon == icon && row.textArea == textArea &&
      exists j :: 0 <= j < |notices| && notices[j].parser == taskParser &&
        row.line == notices[j].line + 1 && row.message == notices[j].message
    decreases |notices|
  {
    if notices != [] {
      var init := notices[..|notices| - 1];
      TaskRowsFromTaskNotices(icon, taskParser, textArea, init);
      var rows := TaskRows(icon, taskParser, textArea, notices);
      var initRows := TaskRows(icon, taskParser, textArea, init);
      forall k | 0 <= k < |rows|
        ensures rows[k].icon == icon && rows[k].textArea == textArea &&
          exists j :: 0 <= j < |notices| && notices[j].parser == taskParser &&
            rows[k].line == notices[j].line + 1 && rows[k].message == notices[j].message
      {
        if k < |initRows| {
          var j :| 0 <= j < |init| && init[j].parser == taskParser &&
            initRows[k].line == init[j].line + 1 && initRows[k].message == init[j].message;
          assert notices[j] == init[j];
        } else {
          assert notices[|notices| - 1].parser == taskParser;
        }
      }
    }
  }

  /** The table model of the window (TaskNoticeTableModel). */
  class TaskNoticeTableModel {
    /** The window's icon and its task parser, which the inner class reads. */
    const icon: Icon
    const taskParser: ParserId
    var rows: seq<Row>

    constructor (icon: Icon, taskParser: ParserId)
      ensures this.icon == icon && this.taskParser == taskParser && rows == []
    {
      this.icon := icon;
      this.taskParser := taskParser;
      rows := [];
    }

    /**
     * addNoticesImpl: walks the notices in order and appends the row of each
     * one that the task parser produced; existing rows are left as they are.
     */
    method AddNoticesImpl(textArea: TextArea, notices: seq<Notice>)
      modifies this
      ensures rows == old(rows) + TaskRows(icon, taskParser, textArea, notices)
    {
      for i := 0 to |notices|
        invariant rows == old(rows) + TaskRows(icon, taskParser, textArea, notices[..i])
      {
        var notice := notices[i];
        assert notices[..i + 1][..i] == notices[..i];
        if notice.parser == taskParser {
          var data := NoticeRow(icon, textArea, notice);
          rows := rows + [data];
        }
      }
      assert notices[..|notices|] == notices;
    }
  }

  /** The property-change events the window listens to. */
  datatype PropertyChangeEvent =
    | ParserNoticesChanged(source: TextArea, currentNotices: seq<Notice>)
    | TextAreaAdded(added: TextArea)
    | TextAreaRemoved(removed: TextArea)
    | OtherProperty(name: string)

  /** A call the window makes on a text area or on its table model. */
  datatype Call =
    | AddNoticesListener(area: TextArea)
    | AddTaskParser(area: TextArea)
    | RemoveTaskParser(area: TextArea)
    | RemoveNoticesListener(area: TextArea)
    | UpdateModel(area: TextArea, notices: seq<Notice>)

  class TaskWindow {
    const taskParser: ParserId
    const icon: Icon
    const model: TaskNoticeTableModel
    /** Text areas this window is registered on as a parser-notices listener. */
    var listenedTo: set<TextArea>
    /** Text areas whose parser list holds the task parser. */
    var parsedBy: set<TextArea>
    /** Calls made so far, oldest first. */
    var calls: seq<Call>

    constructor (icon: Icon, taskParser: ParserId)
      ensures this.icon == icon && this.taskParser == taskParser
      ensures fresh(model) && model.rows == [] && model.icon == icon && model.taskParser == taskParser
      ensures listenedTo == {} && parsedBy == {} && calls == []
    {
      this.icon := icon;
      this.taskParser := taskParser;
      model := new TaskNoticeTableModel(icon, taskParser);
      listenedTo, parsedBy, calls := {}, {}, [];
    }

    /**
     * propertyChange: a notices event hands the source's current notices to
     * the model; an added text area is listened to and then given the task
     * parser; a removed one loses the parser and then the listener.
     */
    method PropertyChange(e: PropertyChangeEvent)
      modifies this
      ensures e.ParserNoticesChanged? ==>
        calls == old(calls) + [UpdateModel(e.source, e.currentNotices)] &&
        listenedTo == old(listenedTo) && parsedBy == old(parsedBy)
      ensures e.TextAreaAdded? ==>
        calls == old(calls) + [AddNoticesListener(e.added), AddTaskParser(e.added)] &&
        listenedTo == old(listenedTo) + {e.added} && parsedBy == old(parsedBy) + {e.added}
      ensures e.TextAreaRemoved? ==>
        calls == old(calls) + [RemoveTaskParser(e.removed), RemoveNoticesListener(e.removed)] &&
        listenedTo == old(listenedTo) - {e.removed} && parsedBy == old(parsedBy) - {e.removed}
      ensures e.OtherProperty? ==> calls == old(calls) && listenedTo == old(listenedTo) && parsedBy == old(parsedBy)
    {
      match e
      case ParserNoticesChanged(source, notices) =>
        calls := calls + [UpdateModel(source, notices)];
      case TextAreaAdded(textArea) =>
        listenedTo := listenedTo + {textArea};
        calls := calls + [AddNoticesListener(textArea)];
        parsedBy := parsedBy + {textArea};
        calls := calls + [AddTaskParser(textArea)];
      case TextAreaRemoved(textArea) =>
        parsedBy := parsedBy - {textArea};
        calls := calls + [RemoveTaskParser(textArea)];
        listenedTo := listenedTo - {textArea};
        calls := calls + [RemoveNoticesListener(textArea)];
      case OtherProperty(_) =>
    }
  }
}
