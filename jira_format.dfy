/**
 * The two ticket listings: the numbered one shown in the chat and the notice
 * posted to the tech team's Slack channel.
 */
module TicketFormat {
  import opened Text
  import opened Jira
  import opened JsonData

  const NoTickets := "No tickets found."

  function DisplayEntry(n: nat, t: Ticket): string {
    Decimal(n) + ". **" + Show(t.key) + "** - " + Show(t.summary)
    + "\n   • Status: `" + Show(t.status) + "` | Priority: `" + Show(t.priority)
    + "` | Assignee: " + Show(t.assignee) + "\n   • Link: " + t.url
  }

  /** The entries of `tickets`, numbered 1 to |tickets|. */
  function DisplayEntries(tickets: seq<Ticket>): (es: seq<string>)
    ensures |es| == |tickets|
  {
    if |tickets| == 0 then []
    else DisplayEntries(tickets[..|tickets| - 1]) + [DisplayEntry(|tickets|, tickets[|tickets| - 1])]
  }

  function DisplayHeader(count: nat): string {
    "\U{1F4CB} **" + Decimal(count) + " Jira Ticket(s) Found**\n"
  }

  function Display(tickets: seq<Ticket>): string {
    if |tickets| == 0 then NoTickets
    else Join("\n", DisplayLines(tickets))
  }

  /** Entry `i` (from 0) is numbered `i + 1` and shows the `i`-th ticket. */
  lemma {:induction false} DisplayEntriesNumbered(tickets: seq<Ticket>, i: nat)
    requires i < |tickets|
    ensures DisplayEntries(tickets)[i] == DisplayEntry(i + 1, tickets[i])
  {
    if i < |tickets| - 1 {
      DisplayEntriesNumbered(tickets[..|tickets| - 1], i);
    }
  }

  function DisplayLines(tickets: seq<Ticket>): seq<string> {
    [DisplayHeader(|tickets|)] + DisplayEntries(tickets)
  }

  /** The chat listing is the sentinel exactly when there is no ticket; otherwise it
      starts with the header giving the count. */
  lemma DisplayHeaderFirst(tickets: seq<Ticket>)
    ensures |tickets| == 0 <==> Display(tickets) == NoTickets
    ensures |tickets| > 0 ==> StartsWith(Display(tickets), DisplayHeader(|tickets|))
  {
    if |tickets| > 0 {
      JoinStartsWithFirst("\n", DisplayLines(tickets));
      assert |NoTickets| < |DisplayHeader(|tickets|)| <= |Display(tickets)|;
    }
  }

  /** Every ticket is listed, as the entry numbered by its position from 1. */
  lemma DisplayListsTicket(tickets: seq<Ticket>, i: nat)
    requires i < |tickets|
    ensures Occurs(DisplayEntry(i + 1, tickets[i]), Display(tickets))
  {
    DisplayLineAt(tickets, i);
    JoinHasPart("\n", DisplayLines(tickets), i + 1);
  }

  /** Line `i + 1` of the listing is the entry of ticket `i`. */
  lemma DisplayLineAt(tickets: seq<Ticket>, i: nat)
    requires i < |tickets|
    ensures |DisplayLines(tickets)| == |tickets| + 1
    ensures DisplayLines(tickets)[i + 1] == DisplayEntry(i + 1, tickets[i])
  {
    DisplayEntriesNumbered(tickets, i);
  }

  /** The loop of `format_tickets_for_display`: appends the entries of `tickets`,
      numbered from 1. */
  method AppendDisplayEntries(lines: seq<string>, tickets: seq<Ticket>) returns (out: seq<string>)
    ensures out == lines + DisplayEntries(tickets)
  {
    out := lines;
    var i := 0;
    while i < |tickets|
      invariant i <= |tickets|
      invariant out == lines + DisplayEntries(tickets[..i])
    {
      assert tickets[..i + 1][..i] == tickets[..i];
      assert DisplayEntries(tickets[..i + 1]) == DisplayEntries(tickets[..i]) + [DisplayEntry(i + 1, tickets[i])];
      SnocAssoc(lines, DisplayEntries(tickets[..i]), DisplayEntry(i + 1, tickets[i]));
      out := out + [DisplayEntry(i + 1, tickets[i])];
      i := i + 1;
    }
    assert tickets[..i] == tickets;
  }

  /** `format_tickets_for_display` */
  method FormatTicketsForDisplay(tickets: seq<Ticket>) returns (text: string)
    ensures text == Display(tickets)
  {
    if |tickets| == 0 {
      return NoTickets;
    }
    var lines := AppendDisplayEntries([DisplayHeader(|tickets|)], tickets);
    text := Join("\n", lines);
  }

  const SlackLimit: nat := 10

  function SlackEntry(t: Ticket): string {
    "• *<" + t.url + "|" + Show(t.key) + ">* - " + Show(t.summary)
    + "\n  Status: " + Show(t.status) + " | Priority: " + Show(t.priority)
    + " | Assignee: " + Show(t.assignee)
  }

  function SlackEntries(tickets: seq<Ticket>): (es: seq<string>)
    ensures |es| == |tickets|
  {
    if |tickets| == 0 then [] else SlackEntries(tickets[..|tickets| - 1]) + [SlackEntry(tickets[|tickets| - 1])]
  }

  function SlackHeader(count: nat, userQuery: string): seq<string> {
    ["\U{1F3AB} *Jira Query from FinStackAI*", "User asked: _" + userQuery + "_\n",
     "Found " + Decimal(count) + " ticket(s):\n"]
  }

  function MoreLine(extra: nat): string {
    "\n_...and " + Decimal(extra) + " more tickets_"
  }

  lemma {:induction false} SlackEntriesAt(tickets: seq<Ticket>, i: nat)
    requires i < |tickets|
    ensures SlackEntries(tickets)[i] == SlackEntry(tickets[i])
  {
    if i < |tickets| - 1 {
      SlackEntriesAt(tickets[..|tickets| - 1], i);
    }
  }

  /** The tickets listed: the first ten. */
  function Shown(tickets: seq<Ticket>): seq<Ticket> {
    if |tickets| <= SlackLimit then tickets else tickets[..SlackLimit]
  }

  function Overflow(tickets: seq<Ticket>): seq<string> {
    if |tickets| > SlackLimit then [MoreLine(|tickets| - SlackLimit)] else []
  }

  function SlackLines(tickets: seq<Ticket>, userQuery: string): seq<string> {
    SlackHeader(|tickets|, userQuery) + SlackEntries(Shown(tickets)) + Overflow(tickets)
  }

  /** The Slack notice states the full count, and has a line for each of at most ten
      tickets, plus one more line exactly when there are more than ten. */
  lemma SlackCounts(tickets: seq<Ticket>, userQuery: string)
    ensures SlackLines(tickets, userQuery)[2] == "Found " + Decimal(|tickets|) + " ticket(s):\n"
    ensures |tickets| <= SlackLimit ==> |SlackLines(tickets, userQuery)| == 3 + |tickets|
    ensures |tickets| > SlackLimit ==> |SlackLines(tickets, userQuery)| == 3 + SlackLimit + 1
  {
  }

  /** The `i`-th of the first ten tickets is listed on line `3 + i`. */
  lemma SlackListsTicket(tickets: seq<Ticket>, userQuery: string, i: nat)
    requires i < |tickets| && i < SlackLimit
    ensures SlackLines(tickets, userQuery)[3 + i] == SlackEntry(tickets[i])
  {
    var header := SlackHeader(|tickets|, userQuery);
    var entries := SlackEntries(Shown(tickets));
    SlackEntriesAt(Shown(tickets), i);
    assert (header + entries + Overflow(tickets))[3 + i] == entries[i];
  }

  /** With more than ten tickets the last line says how many were not listed. */
  lemma SlackMore(tickets: seq<Ticket>, userQuery: string)
    requires |tickets| > SlackLimit
    ensures var lines := SlackLines(tickets, userQuery);
            lines[|lines| - 1] == MoreLine(|tickets| - SlackLimit)
  {
  }

  /** The loop of `format_tickets_for_slack`: appends one entry per ticket. */
  method AppendSlackEntries(lines: seq<string>, tickets: seq<Ticket>) returns (out: seq<string>)
    ensures out == lines + SlackEntries(tickets)
  {
    out := lines;
    var i := 0;
    while i < |tickets|
      invariant i <= |tickets|
      invariant out == lines + SlackEntries(tickets[..i])
    {
      assert tickets[..i + 1][..i] == tickets[..i];
      assert SlackEntries(tickets[..i + 1]) == SlackEntries(tickets[..i]) + [SlackEntry(tickets[i])];
      SnocAssoc(lines, SlackEntries(tickets[..i]), SlackEntry(tickets[i]));
      out := out + [SlackEntry(tickets[i])];
      i := i + 1;
    }
    assert tickets[..i] == tickets;
  }

  /** `format_tickets_for_slack` */
  method FormatTicketsForSlack(tickets: seq<Ticket>, userQuery: string) returns (text: string)
    ensures text == Join("\n", SlackLines(tickets, userQuery))
  {
    var lines := SlackHeader(|tickets|, userQuery);
    var shown := tickets[..if |tickets| <= SlackLimit then |tickets| else SlackLimit];
    assert shown == Shown(tickets);
    lines := AppendSlackEntries(lines, shown);
    if |tickets| > SlackLimit {
      lines := lines + [MoreLine(|tickets| - SlackLimit)];
    }
    assert lines == SlackLines(tickets, userQuery);
    text := Join("\n", lines);
  }
}
