/** The texts the Teams echo bot composes: the decimal rendering of a count, the
    one-line listing entries for channels and members, the listing headers, the
    team-details reply and the help text. */
module Formatting {

  /** A channel of a team as the directory service reports it. */
  datatype ChannelInfo = ChannelInfo(id: string, name: string)

  /** A member of a team or group chat as the directory service reports it. */
  datatype TeamsChannelAccount = TeamsChannelAccount(aadObjectId: string, name: string, userPrincipalName: string)

  /** The team record the directory service reports. */
  datatype TeamDetails = TeamDetails(id: string, name: string, aadGroupId: string)

  /** The arrow written between the fields of one listing line. */
  const Arrow: string := " --> "

  // ---------------------------------------------------------------------------
  // Decimal rendering of counts, as string interpolation writes a non-negative int

  predicate IsDigit(c: char)
  {
    '0' <= c <= '9'
  }

  function DigitChar(d: nat): (c: char)
    requires d < 10
    ensures IsDigit(c) && (c as int) - ('0' as int) == d
  {
    (('0' as int) + d) as char
  }

  /** The decimal digits of n, most significant first, with no leading zero. */
  function NatToString(n: nat): (r: string)
    ensures |r| > 0
    ensures forall i :: 0 <= i < |r| ==> IsDigit(r[i])
    ensures r[0] == '0' <==> n == 0
    ensures n == 0 ==> r == "0"
    decreases n
  {
    if n < 10 then [DigitChar(n)] else NatToString(n / 10) + [DigitChar(n % 10)]
  }

  /** The value of a string of decimal digits. */
  function DecimalValue(s: string): nat
    requires forall i :: 0 <= i < |s| ==> IsDigit(s[i])
  {
    if |s| == 0 then 0
    else
      assert IsDigit(s[|s| - 1]);
      10 * DecimalValue(s[..|s| - 1]) + ((s[|s| - 1] as int) - ('0' as int))
  }

  /** The rendered count reads back as the count. */
  lemma {:induction false} NatToStringRoundTrip(n: nat)
    ensures DecimalValue(NatToString(n)) == n
    decreases n
  {
    if n >= 10 {
      var r := NatToString(n);
      assert r[..|r| - 1] == NatToString(n / 10);
      NatToStringRoundTrip(n / 10);
    }
  }

  /** Different counts render as different strings. */
  lemma NatToStringInjective(m: nat, n: nat)
    requires NatToString(m) == NatToString(n)
    ensures m == n
  {
    NatToStringRoundTrip(m);
    NatToStringRoundTrip(n);
  }

  // ---------------------------------------------------------------------------
  // Listing lines

  /** One channel listing line: the channel id, an arrow, the channel name. */
  function ChannelLine(c: ChannelInfo): (r: string)
    ensures |r| == |c.id| + |Arrow| + |c.name|
    ensures r[..|c.id|] == c.id
    ensures r[|c.id|..|c.id| + |Arrow|] == Arrow
    ensures r[|c.id| + |Arrow|..] == c.name
  {
    c.id + Arrow + c.name
  }

  /** One member listing line: the AAD object id, an arrow, the display name, an
      arrow followed by a second space, the user principal name. */
  function MemberLine(m: TeamsChannelAccount): (r: string)
    ensures var k := |m.aadObjectId| + |Arrow| + |m.name|;
      && |r| == k + |Arrow| + 1 + |m.userPrincipalName|
      && r[..|m.aadObjectId|] == m.aadObjectId
      && r[|m.aadObjectId|..|m.aadObjectId| + |Arrow|] == Arrow
      && r[|m.aadObjectId| + |Arrow|..k] == m.name
      && r[k..k + |Arrow| + 1] == " -->  "
      && r[k + |Arrow| + 1..] == m.userPrincipalName
  {
    m.aadObjectId + Arrow + m.name + " -->  " + m.userPrincipalName
  }

  /** The listing lines of the channels, one per channel, in directory order. */
  function ChannelLines(channels: seq<ChannelInfo>): (r: seq<string>)
    ensures |r| == |channels|
    ensures forall i :: 0 <= i < |channels| ==> r[i] == ChannelLine(channels[i])
  {
    seq(|channels|, i requires 0 <= i < |channels| => ChannelLine(channels[i]))
  }

  /** The listing lines of the members, one per member, in directory order. */
  function MemberLines(members: seq<TeamsChannelAccount>): (r: seq<string>)
    ensures |r| == |members|
    ensures forall i :: 0 <= i < |members| ==> r[i] == MemberLine(members[i])
  {
    seq(|members|, i requires 0 <= i < |members| => MemberLine(members[i]))
  }

  // ---------------------------------------------------------------------------
  // Whole replies

  /** The header sent before a channel listing. */
  function ChannelsHeader(count: nat): (r: string)
  {
    "Total of " + NatToString(count) + " channels are currently in team"
  }

  /** The header sent before a member listing. */
  function MembersHeader(count: nat): (r: string)
  {
    "Total of " + NatToString(count) + " members are currently in team"
  }

  /** A listing header names the count it was made from: the digits after
      "Total of " read back as the count, and a space ends them. */
  lemma {:induction false} HeaderStatesCount(count: nat)
    ensures var h := ChannelsHeader(count);
      var digits := h[9..9 + |NatToString(count)|];
      (forall i :: 0 <= i < |digits| ==> IsDigit(digits[i])) && DecimalValue(digits) == count
      && h[9 + |NatToString(count)|] == ' '
    ensures var h := MembersHeader(count);
      var digits := h[9..9 + |NatToString(count)|];
      (forall i :: 0 <= i < |digits| ==> IsDigit(digits[i])) && DecimalValue(digits) == count
      && h[9 + |NatToString(count)|] == ' '
  {
    assert ChannelsHeader(count)[9..9 + |NatToString(count)|] == NatToString(count);
    assert MembersHeader(count)[9..9 + |NatToString(count)|] == NatToString(count);
    NatToStringRoundTrip(count);
  }

  /** The reply to "show details": the team name, id and AAD group id in bold. */
  function DetailsText(d: TeamDetails): (r: string)
  {
    "The team name is <b>" + d.name + "</b>. The team ID is <b>" + d.id
      + "</b>. The ADDGroupID is <b>" + d.aadGroupId + "</b>."
  }

  /** The reply to any text that is not one of the three commands. */
  const HelpText: string :=
    "You can send me \"show members\" from a group chat or team chat to see a list of members in a team. "
    + "You can send me \"show channels\" from a team to see a channel list for that team. "
    + "You can send me \"show details\" from a team chat to see information about the team."

  /** The first reply of every turn: the incoming text, unchanged, after "Echo: ". */
  function EchoText(text: string): (r: string)
    ensures |r| == 6 + |text| && r[..6] == "Echo: " && r[6..] == text
  {
    "Echo: " + text
  }
}
