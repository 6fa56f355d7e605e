/**
 * The message banners and the titled confirmation dialog that several screens share.
 */
module Feedback {
  import opened Wrappers
  import opened Text

  /** The three message texts a screen shows: success, error and the inline form error. */
  datatype Messages = Messages(ok: string, error: string, inline: string)

  const NoMessages: Messages := Messages("", "", "")

  /** `showOk(m)`: the success text set, both others cleared. */
  function OkOnly(m: string): Messages { Messages(m, "", "") }

  /** `showError(m)`: the error text set, both others cleared. */
  function ErrorOnly(m: string): Messages { Messages("", m, "") }

  /** `showInline(m)`: the inline text set, both others cleared. */
  function InlineOnly(m: string): Messages { Messages("", "", m) }

  /** A confirmation dialog: shown or not, its title and message, and the action that
      confirming runs (none for a purely informative dialog). */
  datatype Dialog<H> = Dialog(open: bool, title: string, message: string, handler: Option<H>)

  /** `closeConfirm`: hidden, texts and action cleared. */
  function ClosedDialog<H>(): Dialog<H> { Dialog(false, "", "", None) }

  /** `doConfirm`: the dialog closes first, then the action captured before closing runs, if
      there was one. */
  function RunConfirm<H>(d: Dialog<H>): (r: (Option<H>, Dialog<H>))
    ensures !r.1.open && r.1.handler.None? && r.1.title == "" && r.1.message == ""
    ensures r.0.Some? <==> d.handler.Some?
    ensures r.0.Some? ==> r.0.value == d.handler.value
  {
    (d.handler, ClosedDialog())
  }

  /** One product of a list shown in a refusal message, `• name`. */
  function Bullet(n: string): string { "• " + n }

  /** `(productos || []).map(n => `• ${n}`).join('\n')`: one bulleted line per product. */
  function Lista(productos: seq<string>): string {
    Join(seq(|productos|, i requires 0 <= i < |productos| => Bullet(productos[i])), "\n")
  }
}
