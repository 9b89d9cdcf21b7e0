/**
  The webhook request bodies and URLs (the structs WeChatBody, Text,
  DingDingBody and At, the literals built in wechatBot and dindinBot, and the
  request URLs). Encoding is modelled at the level of the JSON tree the
  struct tags describe; the byte-level output of json.Marshal is not.
*/
module Envelope {

  import opened Wrappers
  import opened Strings
  import opened Outcome

  const WeChatBotUrl := "https://qyapi.weixin.qq.com/cgi-bin/webhook/send"
  const DingDingBotUrl := "https://oapi.dingtalk.com/robot/send"

  datatype Text = Text(content: string)
  datatype At = At(atMobiles: seq<string>, isAtAll: bool)
  datatype WeChatBody = WeChatBody(msgType: string, text: Text)
  datatype DingDingBody = DingDingBody(msgType: string, text: Text, at: At)

  /** The body one channel sends. */
  datatype Body = WeChatRequest(wechat: WeChatBody) | DingDingRequest(dingding: DingDingBody)

  /** The body wechatBot builds: message type and text only. */
  function WeChatMessage(news: string): WeChatBody
  {
    WeChatBody("text", Text(news))
  }

  /** The body dindinBot builds: the same, plus a mention of everyone. */
  function DingDingMessage(news: string): DingDingBody
  {
    DingDingBody("text", Text(news), At(["@all"], true))
  }

  /** The body sent on a channel. */
  function BodyFor(ch: Channel, news: string): (b: Body)
    ensures b.WeChatRequest? <==> ch == WeChat
  {
    match ch
    case WeChat => WeChatRequest(WeChatMessage(news))
    case DingTalk => DingDingRequest(DingDingMessage(news))
  }

  /** The message text a body carries. */
  function Content(b: Body): string
  {
    match b
    case WeChatRequest(w) => w.text.content
    case DingDingRequest(d) => d.text.content
  }

  /** The WeCom webhook URL: the key goes verbatim into the `key` parameter. */
  function WeChatUrl(key: string): string
  {
    WeChatBotUrl + "?key=" + key
  }

  /** The DingTalk webhook URL: the key goes into the `access_token` parameter. */
  function DingDingUrl(key: string): string
  {
    DingDingBotUrl + "?access_token=" + key
  }

  /** The URL posted to on a channel. */
  function UrlFor(ch: Channel, key: string): string
  {
    match ch
    case WeChat => WeChatUrl(key)
    case DingTalk => DingDingUrl(key)
  }

  /**
    On either channel the body carries exactly the given text with message
    type "text"; only the DingTalk body mentions anyone, and it always
    mentions "@all" with the mention-all flag set.
  */
  lemma BodyForCarries(ch: Channel, news: string)
    ensures Content(BodyFor(ch, news)) == news
    ensures ch == WeChat ==> BodyFor(ch, news).wechat.msgType == "text"
    ensures ch == DingTalk ==> BodyFor(ch, news).dingding.msgType == "text"
    ensures ch == DingTalk ==> BodyFor(ch, news).dingding.at == At(["@all"], true)
  {
  }

  /** Each URL goes to its channel's endpoint and carries its key verbatim. */
  lemma UrlForCarriesKey(ch: Channel, key: string)
    ensures ch == WeChat ==>
      Endpoint(UrlFor(ch, key)) == WeChatBotUrl && QueryValue(UrlFor(ch, key), "key") == Some(key)
    ensures ch == DingTalk ==>
      Endpoint(UrlFor(ch, key)) == DingDingBotUrl && QueryValue(UrlFor(ch, key), "access_token") == Some(key)
  {
    match ch
    case WeChat =>
      assert WeChatUrl(key) == WeChatBotUrl + "?" + "key" + "=" + key;
      QueryRoundTrip(WeChatBotUrl, "key", key);
    case DingTalk =>
      assert DingDingUrl(key) == DingDingBotUrl + "?" + "access_token" + "=" + key;
      QueryRoundTrip(DingDingBotUrl, "access_token", key);
  }

  /** Different keys give different URLs on the same channel. */
  lemma UrlForInjective(ch: Channel, k1: string, k2: string)
    requires UrlFor(ch, k1) == UrlFor(ch, k2)
    ensures k1 == k2
  {
    UrlForCarriesKey(ch, k1);
    UrlForCarriesKey(ch, k2);
  }

  // ---------------------------------------------------------------------
  // The JSON tree named by the struct tags.

  datatype Json =
    | JString(str: string)
    | JBool(b: bool)
    | JArray(items: seq<Json>)
    | JObject(members: seq<(string, Json)>)

  /** The keys of an object, in the order of its members; none for other values. */
  function Keys(j: Json): seq<string>
  {
    match j
    case JObject(ms) => seq(|ms|, i requires 0 <= i < |ms| => ms[i].0)
    case _ => []
  }

  /** The value of the first member named `key`. */
  function Get(j: Json, key: string): Option<Json>
  {
    match j
    case JObject(ms) => Find(ms, key)
    case _ => None
  }

  function Find(ms: seq<(string, Json)>, key: string): Option<Json>
  {
    if ms == [] then None
    else if ms[0].0 == key then Some(ms[0].1)
    else Find(ms[1..], key)
  }

  function StringsJson(ss: seq<string>): (r: seq<Json>)
    ensures |r| == |ss|
  {
    if ss == [] then [] else [JString(ss[0])] + StringsJson(ss[1..])
  }

  function StringsFromJson(items: seq<Json>): Option<seq<string>>
  {
    if items == [] then Some([])
    else if !items[0].JString? then None
    else
      match StringsFromJson(items[1..])
      case None => None
      case Some(rest) => Some([items[0].str] + rest)
  }

  function TextJson(t: Text): Json
  {
    JObject([("content", JString(t.content))])
  }

  function AtJson(a: At): Json
  {
    JObject([("atMobiles", JArray(StringsJson(a.atMobiles))), ("isAtAll", JBool(a.isAtAll))])
  }

  /** The tree of a body: the struct's fields under their json tags. */
  function ToJson(b: Body): Json
  {
    match b
    case WeChatRequest(w) =>
      JObject([("msgtype", JString(w.msgType)), ("text", TextJson(w.text))])
    case DingDingRequest(d) =>
      JObject([("msgtype", JString(d.msgType)), ("text", TextJson(d.text)), ("at", AtJson(d.at))])
  }

  function TextFromJson(j: Json): Option<Text>
  {
    match j
    case JObject(ms) =>
      if |ms| == 1 && ms[0].0 == "content" && ms[0].1.JString? then Some(Text(ms[0].1.str))
      else None
    case _ => None
  }

  function AtFromJson(j: Json): Option<At>
  {
    match j
    case JObject(ms) =>
      if |ms| == 2 && ms[0].0 == "atMobiles" && ms[0].1.JArray? &&
         ms[1].0 == "isAtAll" && ms[1].1.JBool?
      then
        match StringsFromJson(ms[0].1.items)
        case None => None
        case Some(mobiles) => Some(At(mobiles, ms[1].1.b))
      else None
    case _ => None
  }

  /**
    Reads a channel's body back from a tree; None unless the tree has exactly
    that channel's members.
  */
  function FromJson(ch: Channel, j: Json): Option<Body>
  {
    if !j.JObject? then None
    else
      var ms := j.members;
      match ch
      case WeChat =>
        if |ms| == 2 && ms[0].0 == "msgtype" && ms[0].1.JString? && ms[1].0 == "text" then
          match TextFromJson(ms[1].1)
          case None => None
          case Some(t) => Some(WeChatRequest(WeChatBody(ms[0].1.str, t)))
        else None
      case DingTalk =>
        if |ms| == 3 && ms[0].0 == "msgtype" && ms[0].1.JString? && ms[1].0 == "text" && ms[2].0 == "at" then
          match (TextFromJson(ms[1].1), AtFromJson(ms[2].1))
          case (Some(t), Some(a)) => Some(DingDingRequest(DingDingBody(ms[0].1.str, t, a)))
          case _ => None
        else None
  }

  /** What kind of body a channel sends. */
  predicate SentOn(b: Body, ch: Channel)
  {
    b.WeChatRequest? <==> ch == WeChat
  }

  lemma {:induction false} StringsRoundTrip(ss: seq<string>)
    ensures StringsFromJson(StringsJson(ss)) == Some(ss)
    decreases |ss|
  {
    if ss != [] {
      var js := StringsJson(ss);
      var tail := StringsJson(ss[1..]);
      assert js == [JString(ss[0])] + tail;
      assert js[0] == JString(ss[0]) && js[1..] == tail;
      StringsRoundTrip(ss[1..]);
      assert StringsFromJson(js) == Some([ss[0]] + ss[1..]);
      assert [ss[0]] + ss[1..] == ss;
    }
  }

  lemma {:induction false} StringsFromJsonInverse(items: seq<Json>, ss: seq<string>)
    requires StringsFromJson(items) == Some(ss)
    ensures StringsJson(ss) == items
    decreases |items|
  {
    if items != [] {
      var rest := StringsFromJson(items[1..]).value;
      StringsFromJsonInverse(items[1..], rest);
      assert ss == [items[0].str] + rest;
      assert ss[1..] == rest;
      assert items == [items[0]] + items[1..];
    }
  }

  /** Decoding a channel's own tree gives back its body. */
  lemma JsonRoundTrip(ch: Channel, b: Body)
    requires SentOn(b, ch)
    ensures FromJson(ch, ToJson(b)) == Some(b)
  {
    if b.DingDingRequest? {
      StringsRoundTrip(b.dingding.at.atMobiles);
    }
  }

  /** Whatever the decoder accepts is exactly the tree of what it returns. */
  lemma JsonExact(ch: Channel, j: Json, b: Body)
    requires FromJson(ch, j) == Some(b)
    ensures SentOn(b, ch)
    ensures ToJson(b) == j
  {
    var ms := j.members;
    match ch
    case WeChat =>
      assert ms == [ms[0], ms[1]];
      assert ms[1].1.members == [ms[1].1.members[0]];
    case DingTalk =>
      assert ms == [ms[0], ms[1], ms[2]];
      assert ms[1].1.members == [ms[1].1.members[0]];
      var am := ms[2].1.members;
      assert am == [am[0], am[1]];
      StringsFromJsonInverse(am[0].1.items, b.dingding.at.atMobiles);
  }

  /**
    The WeCom tree has just the members "msgtype" and "text", never "at";
    "msgtype" is "text" and "text" holds only "content", the message.
  */
  lemma WeChatJsonShape(news: string)
    ensures var j := ToJson(BodyFor(WeChat, news));
      Keys(j) == ["msgtype", "text"] && "at" !in Keys(j) &&
      Get(j, "msgtype") == Some(JString("text")) &&
      Get(j, "text") == Some(JObject([("content", JString(news))]))
  {
    var j := ToJson(BodyFor(WeChat, news));
    var ms := j.members;
    assert Keys(j) == ["msgtype", "text"];
    assert "at" != "msgtype" && "at" != "text";
    assert "text" != "msgtype";
    assert Find(ms, "text") == Find(ms[1..], "text");
  }

  /**
    The DingTalk tree has "msgtype", "text" and "at"; "at" always holds
    atMobiles = ["@all"] and isAtAll = true, whatever the message.
  */
  lemma DingDingJsonShape(news: string)
    ensures var j := ToJson(BodyFor(DingTalk, news));
      Keys(j) == ["msgtype", "text", "at"] &&
      Get(j, "msgtype") == Some(JString("text")) &&
      Get(j, "text") == Some(JObject([("content", JString(news))])) &&
      Get(j, "at") == Some(JObject([("atMobiles", JArray([JString("@all")])), ("isAtAll", JBool(true))]))
  {
    var j := ToJson(BodyFor(DingTalk, news));
    var ms := j.members;
    assert Keys(j) == ["msgtype", "text", "at"];
    assert "text" != "msgtype" && "at" != "msgtype" && "at" != "text";
    assert Find(ms, "text") == Find(ms[1..], "text");
    assert Find(ms, "at") == Find(ms[1..], "at") == Find(ms[2..], "at");
    assert StringsJson(["@all"]) == [JString("@all")];
  }

  /** A tree of one channel's body is not accepted as the other channel's. */
  lemma JsonChannelsDisjoint(b: Body, other: Channel)
    requires !SentOn(b, other)
    ensures FromJson(other, ToJson(b)) == None
  {
  }
}
