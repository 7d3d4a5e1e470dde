/**
 * The chart tooltip (components/dashboard/overview.tsx): what it shows and
 * the open rate it computes from the hovered bucket's two bars.
 */
module Overview {
  import opened Wrappers
  import opened Rounding
  import Dashboard

  /** A bar value in the tooltip payload: a number, or anything else (`undefined`, a string). */
  datatype BarValue = Number(n: real) | NotANumber

  /** One payload entry: the bar's value and the name of the bucket it belongs to. */
  datatype PayloadEntry = PayloadEntry(value: BarValue, bucketName: string)

  /** The open rate of the inline callback: 0 unless `sent` is a positive number and `opened` a number. */
  function TooltipOpenRate(sent: BarValue, openedBar: BarValue): int {
    if sent.Number? && sent.n > 0.0 && openedBar.Number? then Round(openedBar.n / sent.n * 100.0) else 0
  }

  /** The rate is the rounded percentage when defined, 0 otherwise. */
  lemma TooltipOpenRateCases(sent: BarValue, openedBar: BarValue)
    ensures !(sent.Number? && sent.n > 0.0 && openedBar.Number?) ==> TooltipOpenRate(sent, openedBar) == 0
    ensures sent.Number? && sent.n > 0.0 && openedBar.Number? ==>
      var r := TooltipOpenRate(sent, openedBar) as real;
      openedBar.n / sent.n * 100.0 - 0.5 < r <= openedBar.n / sent.n * 100.0 + 0.5
  {
  }

  /** For `0 <= opened <= sent` the rate is a whole percentage in 0..100. */
  lemma TooltipOpenRateRange(sent: real, openedRows: real)
    requires 0.0 <= openedRows <= sent
    ensures 0 <= TooltipOpenRate(Number(sent), Number(openedRows)) <= 100
  {
    if sent > 0.0 {
      assert openedRows / sent <= 1.0;
      RoundPercent(openedRows / sent * 100.0);
    }
  }

  /** Every bucket of the dashboard chart shows a rate in 0..100. */
  lemma ChartBucketRate(current: int, rows: seq<Dashboard.SentRow>, j: int)
    requires 0 <= j < 7
    ensures var b := Dashboard.Chart(current, rows)[j];
      0 <= TooltipOpenRate(Number(b.sent as real), Number(b.openedCount as real)) <= 100
  {
    Dashboard.ChartOpenedAtMostSent(current, rows);
    var b := Dashboard.Chart(current, rows)[j];
    TooltipOpenRateRange(b.sent as real, b.openedCount as real);
  }

  /** What the `content` callback returns. */
  datatype TooltipContent =
    | NoTooltip
    | Thrown                 // `payload[1].value` on a one-entry payload
    | Shown(bucketName: string, sent: BarValue, openedBar: BarValue, openRate: int)

  function Tooltip(active: bool, payload: Option<seq<PayloadEntry>>): TooltipContent {
    if !active || payload.None? || |payload.value| == 0 then NoTooltip
    else if |payload.value| == 1 then Thrown
    else
      var p := payload.value;
      Shown(p[0].bucketName, p[0].value, p[1].value, TooltipOpenRate(p[0].value, p[1].value))
  }

  /** Nothing is rendered unless the tooltip is active with a non-empty payload; then the first two bars are shown. */
  lemma TooltipShownIff(active: bool, payload: Option<seq<PayloadEntry>>)
    ensures Tooltip(active, payload) == NoTooltip <==> !active || payload.None? || |payload.value| == 0
    ensures Tooltip(active, payload).Shown? ==>
      && |payload.value| >= 2
      && Tooltip(active, payload).sent == payload.value[0].value
      && Tooltip(active, payload).openedBar == payload.value[1].value
      && Tooltip(active, payload).openRate == TooltipOpenRate(payload.value[0].value, payload.value[1].value)
  {
  }
}
