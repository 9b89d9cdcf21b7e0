/**
  The alert text (generateAlertMessage): a fixed template filled with the five
  facts about the new host, composed only after the geolocation gate passes.
*/
module Alert {

  import opened Wrappers
  import opened Strings
  import opened Outcome
  import opened Geolocation

  /** The five facts given on the command line, as plain text. */
  datatype AlertInput = AlertInput(
    computerName: string,
    internalIP: string,
    externalIP: string,
    userName: string,
    process: string)

  const Header := "新主机上线！"
  const ComputerNameLabel := "主机名："
  const InternalIPLabel := "内网 IP："
  const ExternalIPLabel := "外网 IP："
  const UserNameLabel := "用户名："
  const ProcessLabel := "进程："
  const Trailer := "请及时处理！@所有人"

  /**
    The template of main.go, each %s filled verbatim: the header, five
    labelled lines and the call to action, separated by newlines.
  */
  function ComposeAlert(x: AlertInput): string
  {
    Header + "\n" +
    (ComputerNameLabel + x.computerName) + "\n" +
    (InternalIPLabel + x.internalIP) + "\n" +
    (ExternalIPLabel + x.externalIP) + "\n" +
    (UserNameLabel + x.userName) + "\n" +
    (ProcessLabel + x.process) + "\n" +
    Trailer
  }

  /** The seven lines the template is meant to produce, in order. */
  function AlertLines(x: AlertInput): (ls: seq<string>)
    ensures |ls| == 7
  {
    [Header,
     ComputerNameLabel + x.computerName,
     InternalIPLabel + x.internalIP,
     ExternalIPLabel + x.externalIP,
     UserNameLabel + x.userName,
     ProcessLabel + x.process,
     Trailer]
  }

  /** No field holds a newline (nothing in the source checks this). */
  predicate SingleLineFields(x: AlertInput)
  {
    '\n' !in x.computerName && '\n' !in x.internalIP && '\n' !in x.externalIP &&
    '\n' !in x.userName && '\n' !in x.process
  }

  /** Putting a line in front of a joined tail. */
  lemma JoinStep(ls: seq<string>)
    requires |ls| >= 2
    ensures JoinLines(ls) == ls[0] + "\n" + JoinLines(ls[1..])
  {
  }

  /** Seven lines joined, written out. */
  lemma JoinSeven(ls: seq<string>)
    requires |ls| == 7
    ensures JoinLines(ls) ==
      ls[0] + "\n" + (ls[1] + "\n" + (ls[2] + "\n" + (ls[3] + "\n" +
      (ls[4] + "\n" + (ls[5] + "\n" + ls[6])))))
  {
    assert JoinLines(ls[6..]) == ls[6];
    JoinStep(ls[5..]);
    assert ls[5..][1..] == ls[6..];
    JoinStep(ls[4..]);
    assert ls[4..][1..] == ls[5..];
    JoinStep(ls[3..]);
    assert ls[3..][1..] == ls[4..];
    JoinStep(ls[2..]);
    assert ls[2..][1..] == ls[3..];
    JoinStep(ls[1..]);
    assert ls[1..][1..] == ls[2..];
    JoinStep(ls);
  }

  /** Regrouping seven lines and their separators. */
  lemma Regroup(n: string, a: string, b: string, c: string, d: string, e: string, f: string, g: string)
    ensures a + n + b + n + c + n + d + n + e + n + f + n + g ==
      a + n + (b + n + (c + n + (d + n + (e + n + (f + n + g)))))
  {
  }

  /** The template is the seven lines joined by newlines. */
  lemma ComposeIsJoin(x: AlertInput)
    ensures ComposeAlert(x) == JoinLines(AlertLines(x))
  {
    var ls := AlertLines(x);
    JoinSeven(ls);
    Regroup("\n", ls[0], ls[1], ls[2], ls[3], ls[4], ls[5], ls[6]);
  }

  /** The labels, the header and the trailer are single lines. */
  lemma TemplateSingleLine()
    ensures '\n' !in Header && '\n' !in Trailer
    ensures '\n' !in ComputerNameLabel && '\n' !in InternalIPLabel && '\n' !in ExternalIPLabel
    ensures '\n' !in UserNameLabel && '\n' !in ProcessLabel
  {
  }

  /**
    With single-line fields the message has exactly seven lines: the header,
    then each label followed by its value in the order computer name,
    internal IP, external IP, user name, process, then the call to action.
  */
  lemma ComposeAlertLines(x: AlertInput)
    requires SingleLineFields(x)
    ensures Lines(ComposeAlert(x)) == AlertLines(x)
  {
    TemplateSingleLine();
    var ls := AlertLines(x);
    assert NoNewlines(ls) by {
      forall k | 0 <= k < |ls| ensures '\n' !in ls[k] {
      }
    }
    ComposeIsJoin(x);
    LinesOfJoin(ls);
  }

  /**
    Whatever the fields hold, the message starts with the header line, ends
    with the call-to-action line, and holds every field right after its label.
  */
  lemma ComposeAlertShape(x: AlertInput)
    ensures Header + "\n" <= ComposeAlert(x)
    ensures var m := ComposeAlert(x);
      |m| >= |Trailer| + 1 && m[|m| - |Trailer| - 1..] == "\n" + Trailer
    ensures Contains(ComposeAlert(x), ComputerNameLabel + x.computerName + "\n")
    ensures Contains(ComposeAlert(x), InternalIPLabel + x.internalIP + "\n")
    ensures Contains(ComposeAlert(x), ExternalIPLabel + x.externalIP + "\n")
    ensures Contains(ComposeAlert(x), UserNameLabel + x.userName + "\n")
    ensures Contains(ComposeAlert(x), ProcessLabel + x.process + "\n")
  {
    var ls := AlertLines(x);
    ComposeIsJoin(x);
    JoinStep(ls);
    assert ComposeAlert(x)[..|Header + "\n"|] == Header + "\n";
    JoinEndsWithLast(ls);
    JoinedLineOccurs(ls, 1);
    JoinedLineOccurs(ls, 2);
    JoinedLineOccurs(ls, 3);
    JoinedLineOccurs(ls, 4);
    JoinedLineOccurs(ls, 5);
  }

  /** The value of a line that starts with `prefix`. */
  function AfterLabel(line: string, prefix: string): Option<string>
  {
    if prefix <= line then Some(line[|prefix|..]) else None
  }

  /**
    Reads the five facts back from an alert text; None when the text is not
    seven lines of the template's shape.
  */
  function ParseAlert(m: string): Option<AlertInput>
  {
    var ls := Lines(m);
    if |ls| != 7 || ls[0] != Header || ls[6] != Trailer then None
    else
      match (AfterLabel(ls[1], ComputerNameLabel), AfterLabel(ls[2], InternalIPLabel),
             AfterLabel(ls[3], ExternalIPLabel), AfterLabel(ls[4], UserNameLabel),
             AfterLabel(ls[5], ProcessLabel))
      case (Some(a), Some(b), Some(c), Some(d), Some(e)) => Some(AlertInput(a, b, c, d, e))
      case _ => None
  }

  lemma AfterLabelOf(prefix: string, value: string)
    ensures AfterLabel(prefix + value, prefix) == Some(value)
  {
    assert (prefix + value)[..|prefix|] == prefix;
    assert (prefix + value)[|prefix|..] == value;
  }

  /** Composing and then parsing gives back the facts when they are single lines. */
  lemma ParseCompose(x: AlertInput)
    requires SingleLineFields(x)
    ensures ParseAlert(ComposeAlert(x)) == Some(x)
  {
    ComposeAlertLines(x);
    AfterLabelOf(ComputerNameLabel, x.computerName);
    AfterLabelOf(InternalIPLabel, x.internalIP);
    AfterLabelOf(ExternalIPLabel, x.externalIP);
    AfterLabelOf(UserNameLabel, x.userName);
    AfterLabelOf(ProcessLabel, x.process);
  }

  /** Whatever the parser accepts is exactly the composition of what it read. */
  lemma ComposeParse(m: string, x: AlertInput)
    requires ParseAlert(m) == Some(x)
    ensures ComposeAlert(x) == m
    ensures SingleLineFields(x)
  {
    var ls := Lines(m);
    JoinOfLines(m);
    LinesHaveNoNewlines(m);
    assert ls[1] == ComputerNameLabel + x.computerName;
    assert ls[2] == InternalIPLabel + x.internalIP;
    assert ls[3] == ExternalIPLabel + x.externalIP;
    assert ls[4] == UserNameLabel + x.userName;
    assert ls[5] == ProcessLabel + x.process;
    assert AlertLines(x) == ls;
    ComposeIsJoin(x);
    assert '\n' !in ls[1] && '\n' !in ls[2] && '\n' !in ls[3] && '\n' !in ls[4] && '\n' !in ls[5];
  }

  /** Two hosts with single-line facts never produce the same alert. */
  lemma ComposeInjective(x: AlertInput, y: AlertInput)
    requires SingleLineFields(x) && SingleLineFields(y)
    requires ComposeAlert(x) == ComposeAlert(y)
    ensures x == y
  {
    ParseCompose(x);
    ParseCompose(y);
  }

  /**
    generateAlertMessage: the gate runs on the external IP first. A rejected
    address stops the run with status 1 and nothing is composed; a failed
    lookup is fatal; otherwise the answer is the filled template.
  */
  function GenerateAlertMessage(x: AlertInput, lookup: string -> LookupResult): (r: Result<string, Status>)
    ensures r.Ok? <==> CheckIPchina(x.externalIP, lookup) == Ok(true)
    ensures r.Ok? ==> r.value == ComposeAlert(x)
    ensures r == Err(Rejected) <==> CheckIPchina(x.externalIP, lookup) == Ok(false)
    ensures CheckIPchina(x.externalIP, lookup).Err? ==>
      r == Err(Fatal(CheckIPchina(x.externalIP, lookup).error))
  {
    match CheckIPchina(x.externalIP, lookup)
    case Err(f) => Err(Fatal(f))
    case Ok(inChina) =>
      if !inChina then Err(Rejected) else Ok(ComposeAlert(x))
  }
}
