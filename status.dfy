/**
 * The status of the supervised Mopidy process and the status-bar label that
 * Application.SetStatus derives from it (main.go:144-157).
 */
module Status {
  import opened Options

  /** Lifecycle states of the supervised Mopidy process. */
  datatype MopidyStatus = NotStarted | Connecting | Connected | Failed

  /** What the status bar shows: a stock icon name ("" for none) and a text. */
  datatype Label = Label(icon: string, text: string)

  /** The value of gtk.STOCK_CONNECT. */
  const StockConnect: string := "gtk-connect"

  /** The label before any status has been set. */
  const Blank: Label := Label("", "")

  /** The label SetStatus writes for a status, or None when its switch has no case for it. */
  function LabelFor(st: MopidyStatus): Option<Label>
  {
    match st
    case Connecting => Some(Label("", "Connecting..."))
    case Connected => Some(Label(StockConnect, "Connected to Mopidy."))
    case Failed => Some(Label("", "Not connected."))
    case NotStarted => None
  }

  /** The label after SetStatus(st) has run on a status bar showing `bar`. */
  function ApplyStatus(bar: Label, st: MopidyStatus): Label
  {
    match LabelFor(st)
    case Some(l) => l
    case None => bar
  }

  /** Reads a status back from what the status bar says: the inverse of LabelFor. */
  function StatusShown(bar: Label): Option<MopidyStatus>
  {
    if bar.text == "Connecting..." then Some(Connecting)
    else if bar.text == "Connected to Mopidy." then Some(Connected)
    else if bar.text == "Not connected." then Some(Failed)
    else None
  }

  /** The status bar shows the whole label, icon and text, of a status that has one. */
  predicate Agrees(st: MopidyStatus, bar: Label)
  {
    st != NotStarted ==> LabelFor(st) == Some(bar)
  }

  /** Exactly the three statuses handled by the switch get a label, and each label reads back as its status. */
  lemma LabelRoundTrip(st: MopidyStatus)
    ensures LabelFor(st).Some? <==> st != NotStarted
    ensures LabelFor(st).Some? ==> StatusShown(LabelFor(st).value) == Some(st)
  {
  }

  /** Different statuses never share a label. */
  lemma LabelsDistinct(a: MopidyStatus, b: MopidyStatus)
    requires LabelFor(a).Some? && LabelFor(a) == LabelFor(b)
    ensures a == b
  {
    LabelRoundTrip(a);
    LabelRoundTrip(b);
  }

  /** Only the Connected label carries the connect icon. */
  lemma ConnectIcon(bar: Label, st: MopidyStatus)
    requires st != NotStarted
    ensures ApplyStatus(bar, st).icon == StockConnect <==> st == Connected
  {
  }

  /**
   * After SetStatus(st) the status bar agrees with st; a status without a case
   * in the switch leaves the label exactly as it was.
   */
  lemma ApplyStatusAgrees(bar: Label, st: MopidyStatus)
    ensures Agrees(st, ApplyStatus(bar, st))
    ensures st == NotStarted ==> ApplyStatus(bar, st) == bar
    ensures st != NotStarted ==> ApplyStatus(bar, st) == LabelFor(st).value
    ensures st != NotStarted ==> StatusShown(ApplyStatus(bar, st)) == Some(st)
  {
  }
}
