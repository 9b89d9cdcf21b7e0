/**
  One run of the notifier (main, wechatBot, dindinBot): gate, compose, post
  to WeCom, post to DingTalk, each error ending the run at once. The network
  is replaced by given outcomes; the run answers with the requests it attempted,
  in order, and how it ended.
*/
module Notifier {

  import opened Wrappers
  import opened Strings
  import opened Outcome
  import opened Geolocation
  import opened Alert
  import opened Envelope

  /** What the network did with one webhook request. */
  datatype PostResult =
    | Delivered      // encoded, posted, and the response read
    | EncodeError    // json.Marshal failed: nothing was posted
    | PostError      // http.Post failed
    | ResponseError  // the POST was made but its response could not be read

  /** One POST attempted: the channel, the URL and the body. */
  datatype Event = Posted(channel: Channel, url: string, body: Body)

  /** The POST a channel's dispatcher makes for a message and a key. */
  function Attempt(ch: Channel, news: string, key: string): Event
  {
    Posted(ch, UrlFor(ch, key), BodyFor(ch, news))
  }

  /** The requests of a run in which every step succeeds. */
  function FullTrace(x: AlertInput, wechatKey: string, dingKey: string): (t: seq<Event>)
    ensures |t| == 2 && t[0].channel == WeChat && t[1].channel == DingTalk
  {
    [Attempt(WeChat, ComposeAlert(x), wechatKey), Attempt(DingTalk, ComposeAlert(x), dingKey)]
  }

  /**
    The failure a dispatcher reports for an outcome: none on delivery,
    otherwise the failed step, tagged with the channel.
  */
  function StepFailure(ch: Channel, result: PostResult): (r: Option<Failure>)
    ensures r == None <==> result == Delivered
    ensures r.Some? ==> FailedChannel(r.value) == Some(ch)
    ensures result == EncodeError ==> r == Some(EncodeFailed(ch))
    ensures result == PostError ==> r == Some(PostFailed(ch))
    ensures result == ResponseError ==> r == Some(ResponseReadFailed(ch))
  {
    match result
    case Delivered => None
    case EncodeError => Some(EncodeFailed(ch))
    case PostError => Some(PostFailed(ch))
    case ResponseError => Some(ResponseReadFailed(ch))
  }

  /**
    wechatBot / dindinBot: build the channel's body, encode it, post it to
    the channel's URL and read the answer. The POST is attempted unless
    encoding failed; every failure is reported with its step and channel.
  */
  method Dispatch(ch: Channel, news: string, key: string, result: PostResult)
    returns (sent: seq<Event>, failure: Option<Failure>)
    ensures sent == (if result == EncodeError then [] else [Attempt(ch, news, key)])
    ensures forall e :: e in sent ==> e.channel == ch && Content(e.body) == news
    ensures failure == StepFailure(ch, result)
  {
    var body := BodyFor(ch, news);
    if result == EncodeError {
      return [], Some(EncodeFailed(ch));
    }
    sent := [Posted(ch, UrlFor(ch, key), body)];
    BodyForCarries(ch, news);
    if result == PostError {
      return sent, Some(PostFailed(ch));
    }
    if result == ResponseError {
      return sent, Some(ResponseReadFailed(ch));
    }
    failure := None;
  }

  /**
    main: the gate on the external IP, then the message, then WeCom, then
    DingTalk, stopping at the first failure. `lookup` answers the
    geolocation request; `wechat` and `dingding` are what happens to each
    webhook request.
  */
  method Run(x: AlertInput, wechatKey: string, dingKey: string,
             lookup: string -> LookupResult, wechat: PostResult, dingding: PostResult)
    returns (trace: seq<Event>, status: Status)
    // the requests attempted are the first ones of a fully successful run
    ensures trace <= FullTrace(x, wechatKey, dingKey)
    ensures |trace| ==
      if CheckIPchina(x.externalIP, lookup) != Ok(true) || wechat == EncodeError then 0
      else if wechat != Delivered || dingding == EncodeError then 1
      else 2
    // both channels get the same composed text
    ensures forall e :: e in trace ==> Content(e.body) == ComposeAlert(x)
    // a rejected address: nothing posted, exit status 1
    ensures CheckIPchina(x.externalIP, lookup) == Ok(false) ==> trace == [] && status == Rejected
    // a failed lookup: nothing posted, the lookup failure is fatal
    ensures CheckIPchina(x.externalIP, lookup).Err? ==>
      trace == [] && status == Fatal(CheckIPchina(x.externalIP, lookup).error)
    // success exactly when every step succeeds, and then both channels, WeCom first
    ensures status == Success <==>
      CheckIPchina(x.externalIP, lookup) == Ok(true) && wechat == Delivered && dingding == Delivered
    ensures status == Success ==> trace == FullTrace(x, wechatKey, dingKey)
    // a WeCom failure ends the run before DingTalk is tried
    ensures CheckIPchina(x.externalIP, lookup) == Ok(true) && wechat != Delivered ==>
      status == Fatal(StepFailure(WeChat, wechat).value) &&
      forall e :: e in trace ==> e.channel == WeChat
    ensures CheckIPchina(x.externalIP, lookup) == Ok(true) && wechat == Delivered && dingding != Delivered ==>
      status == Fatal(StepFailure(DingTalk, dingding).value)
  {
    var gated := GenerateAlertMessage(x, lookup);
    if gated.Err? {
      return [], gated.error;
    }
    var content := gated.value;
    var sentWeChat, failWeChat := Dispatch(WeChat, content, wechatKey, wechat);
    trace := sentWeChat;
    if failWeChat.Some? {
      return trace, Fatal(failWeChat.value);
    }
    var sentDingTalk, failDingTalk := Dispatch(DingTalk, content, dingKey, dingding);
    trace := trace + sentDingTalk;
    if failDingTalk.Some? {
      return trace, Fatal(failDingTalk.value);
    }
    status := Success;
  }

  /** A host whose address the lookup places in China: both channels, WeCom first. */
  method ScenarioDomesticHost()
  {
    var x := AlertInput("WIN-01", "10.0.0.5", "1.2.3.4", "alice", "cmd.exe");
    var answer := "中国 北京 联通";
    assert OccursAt(answer, CountryMarker, 0);
    ContainsAt(answer, CountryMarker, 0);
    var trace, status := Run(x, "", "", u => Body(answer), Delivered, Delivered);
    assert status == Success && ExitCode(status) == 0;
    assert |trace| == 2 && trace[0].channel == WeChat && trace[1].channel == DingTalk;
    assert trace[0].url == WeChatUrl("") && trace[1].url == DingDingUrl("");
    var m := Content(trace[0].body);
    ComposeAlertShape(x);
    assert Contains(m, ComputerNameLabel + "WIN-01" + "\n");
    assert Contains(m, ProcessLabel + "cmd.exe" + "\n");
  }

  /** A host placed elsewhere: exit status 1 and nothing posted. */
  method ScenarioForeignHost()
  {
    var x := AlertInput("WIN-01", "10.0.0.5", "1.2.3.4", "alice", "cmd.exe");
    var answer := "US";
    IsChinaIff(answer);
    var trace, status := Run(x, "", "", u => Body(answer), Delivered, Delivered);
    assert trace == [] && status == Rejected && ExitCode(status) == 1;
  }

  /** The lookup itself fails: a fatal lookup error and nothing posted. */
  method ScenarioLookupFails()
  {
    var x := AlertInput("WIN-01", "10.0.0.5", "1.2.3.4", "alice", "cmd.exe");
    var trace, status := Run(x, "", "", u => GetError, Delivered, Delivered);
    assert trace == [] && status == Fatal(LookupGetFailed) && ExitCode(status) != 0;
  }

  /** A failed WeCom POST ends the run: DingTalk is never tried. */
  method ScenarioWeChatFails()
  {
    var x := AlertInput("WIN-01", "10.0.0.5", "1.2.3.4", "alice", "cmd.exe");
    var answer := "中国";
    ContainsAt(answer, CountryMarker, 0);
    var trace, status := Run(x, "", "", u => Body(answer), PostError, Delivered);
    assert trace == [Attempt(WeChat, ComposeAlert(x), "")];
    assert status == Fatal(PostFailed(WeChat));
  }
}
