/** Notifications as stored, and the guarded single-row UPDATE statements that are the only
    way their status ever changes. */
module Domain {

  datatype Option<+T> = None | Some(value: T)

  datatype Channel = Sms | Email | Push

  datatype Priority = High | Normal | Low

  datatype Status = Pending | Queued | Sending | Delivered | Failed | Cancelled

  /** One row of the notifications table.  Times are ticks of the database clock. */
  datatype Row = Row(
    status: Status,
    scheduledAt: Option<int>,
    provider: Option<string>,
    key: Option<string>,
    batch: Option<nat>,
    createdAt: int,
    recipient: string,
    channel: Channel,
    priority: Priority,
    content: Option<string>,
    template: Option<nat>,
    payload: Option<string>)

  predicate Terminal(st: Status) {
    st.Delivered? || st.Failed? || st.Cancelled?
  }

  /** The guarded UPDATE statements, named by the status they set. */
  datatype Update = ToQueued | ToSending | ToDelivered(mid: Option<string>) | ToFailed | ToReleased | ToCancelled

  /** The status list in the WHERE clause of each statement. */
  predicate Guard(u: Update, st: Status) {
    match u
    case ToQueued => st.Pending?
    case ToSending => st.Pending? || st.Queued? || st.Sending?
    case ToDelivered(_) => st.Sending?
    case ToFailed => st.Pending? || st.Queued? || st.Sending?
    case ToReleased => st.Sending?
    case ToCancelled => st.Pending? || st.Queued?
  }

  /** The row after the statement ran; unchanged when the guard does not match. */
  function Exec(u: Update, row: Row): Row {
    if !Guard(u, row.status) then row
    else
      match u
      case ToQueued => row.(status := Queued)
      case ToSending => row.(status := Sending)
      case ToDelivered(mid) => row.(status := Delivered, provider := if mid.Some? then mid else row.provider)
      case ToFailed => row.(status := Failed)
      case ToReleased => row.(status := Queued)
      case ToCancelled => row.(status := Cancelled)
  }

  /** How a database call can end: normally, or with a driver error after which the statement
      may or may not have taken effect. */
  datatype Db = Fine | Fault(applied: bool)

  function ExecDb(u: Update, row: Row, db: Db): Row {
    if db.Fine? || db.applied then Exec(u, row) else row
  }

  /** The call returned a nil error: no driver error and one row affected. */
  predicate Reported(u: Update, row: Row, db: Db) {
    db.Fine? && Guard(u, row.status)
  }

  lemma {:induction false} SubsetSize(a: set<nat>, b: set<nat>)
    requires a <= b
    ensures |a| <= |b|
  {
    if a != {} {
      var x :| x in a;
      SubsetSize(a - {x}, b - {x});
    }
  }
}
