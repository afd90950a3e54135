/**
 * The notifier: it sends training lifecycle notices to one direct-message
 * channel and remembers, per job id, the timestamp of the first message it
 * posted for that job, so that later notices for the same job are posted as
 * replies in that thread.
 *
 * The chat service's post-message call is an oracle `transport` from the
 * message handed to it to either the new message's timestamp or an error code.
 */
module Interface {
  import opened Wrappers
  import opened Blocks
  import opened Fields

  /** What the post-message call gives back. */
  datatype PostResult = Posted(ts: string) | ApiError(code: string)

  /** The arguments of one post-message call. */
  datatype Message = Message(
    channel: string,
    text: string,
    blocks: seq<Block>,
    threadTs: Option<string>,
    replyBroadcast: Option<bool>,
    iconEmoji: Option<string>)

  /** The four job lifecycle notices. */
  datatype Event = TrainingStart | Progress | Error | Result

  /** The event part of a notice's header. */
  function Label(e: Event): (name: string) {
    match e
    case TrainingStart => "学習開始"
    case Progress => "途中経過"
    case Error => "エラーが発生しました"
    case Result => "学習終了"
  }

  /** The header title of a notice: the event label, ` --- `, then the job id. */
  function HeaderTitle(e: Event, id: string): (title: string) {
    Label(e) + " --- " + id
  }

  /** The plain-text fallback shown in notification previews. */
  function MobileText(e: Event, id: string): (text: string) {
    match e
    case TrainingStart => id + "の学習を開始しました"
    case Progress => id + "の途中経過です"
    case Error => id + "でエラーが発生しました"
    case Result => id + "の学習が終了しました"
  }

  const WarningIcon: string := ":warning:"

  class TrainingManager {
    const userId: string
    /** The direct-message channel, resolved once when the notifier is built. */
    const channelId: string
    /** Job id to the timestamp of the job's first posted message. */
    var tsHolder: map<string, string>

    constructor (userId: string, channelId: string)
      ensures this.userId == userId && this.channelId == channelId
      ensures tsHolder == map[]
    {
      this.userId := userId;
      this.channelId := channelId;
      tsHolder := map[];
    }

    /** The thread timestamp stored for `id`, or None when there is none. */
    function GetTs(id: string): (r: Option<string>)
      reads this
      ensures r.Some? <==> id in tsHolder
      ensures r.Some? ==> r.value == tsHolder[id]
    {
      if id in tsHolder then Some(tsHolder[id]) else None
    }

    /**
     * Posts `blocks` without their absent entries, in their order, under
     * `ts` when given; returns the new message's timestamp on success and the
     * error code on failure. `posted` is the message handed to the transport.
     */
    method SendRichBlock(
      mobileText: string, blocks: seq<Option<Block>>, ts: Option<string> := None,
      replyBroadcast: Option<bool> := None, iconEmoji: Option<string> := None,
      transport: Message -> PostResult)
      returns (ok: bool, tsOrError: string, ghost posted: Message)
      ensures posted == Message(channelId, mobileText, Present(blocks), ts, replyBroadcast, iconEmoji)
      ensures var reply := transport(Message(channelId, mobileText, Present(blocks), ts, replyBroadcast, iconEmoji));
              && (ok <==> reply.Posted?)
              && (ok ==> tsOrError == reply.ts)
              && (!ok ==> tsOrError == reply.code)
    {
      var composed := ComposeBlocks(blocks);
      var message := Message(channelId, mobileText, composed, ts, replyBroadcast, iconEmoji);
      posted := message;
      match transport(message)
      case Posted(newTs) =>
        ok, tsOrError := true, newTs;
      case ApiError(code) =>
        ok, tsOrError := false, code;
    }

    /**
     * The steps every lifecycle notice shares: post the header, a divider and
     * `body` under the job's stored thread timestamp, and on success store the
     * new timestamp if the job had none.
     */
    method SendLifecycle(
      e: Event, id: string, body: seq<Block>,
      replyBroadcast: Option<bool>, iconEmoji: Option<string>, transport: Message -> PostResult)
      returns (ok: bool, payload: string, ghost posted: Message)
      modifies this
      ensures posted == Message(channelId, MobileText(e, id), [Header(HeaderTitle(e, id)), Divider] + body,
                                old(GetTs(id)), replyBroadcast, iconEmoji)
      ensures ok <==> transport(posted).Posted?
      ensures payload == if ok then "" else transport(posted).code
      ensures !ok ==> tsHolder == old(tsHolder)
      ensures ok && id !in old(tsHolder) ==> tsHolder == old(tsHolder)[id := transport(posted).ts]
      ensures ok && id in old(tsHolder) ==> tsHolder == old(tsHolder)
    {
      var headerBlock := Header(HeaderTitle(e, id));
      var dividerBlock := Divider;
      var ts := GetTs(id);
      var blocks := [headerBlock, dividerBlock] + body;
      PresentAllSome(blocks);
      var result, tsOrError;
      result, tsOrError, posted := SendRichBlock(MobileText(e, id), AllSome(blocks), ts, replyBroadcast, iconEmoji, transport);
      if !result {
        return false, tsOrError, posted;
      }
      if ts.None? {
        tsHolder := tsHolder[id := tsOrError];
      }
      return true, "", posted;
    }

    /**
     * Announces the start of job `id`, one capped field group per dictionary of
     * `optionals`, the groups separated by dividers.
     */
    method SendTrainingStart(id: string, optionals: Option<seq<Dict>> := None, transport: Message -> PostResult)
      returns (ok: bool, payload: string, ghost posted: Message)
      modifies this
      ensures posted.channel == channelId && posted.text == MobileText(TrainingStart, id)
      ensures posted.blocks == [Header(HeaderTitle(TrainingStart, id)), Divider] + BodyLayout(CappedGroups(optionals))
      ensures posted.threadTs == old(GetTs(id))
      ensures posted.replyBroadcast == None && posted.iconEmoji == None
      ensures ok <==> transport(posted).Posted?
      ensures payload == if ok then "" else transport(posted).code
      ensures !ok ==> tsHolder == old(tsHolder)
      ensures ok && id !in old(tsHolder) ==> tsHolder == old(tsHolder)[id := transport(posted).ts]
      ensures ok && id in old(tsHolder) ==> tsHolder == old(tsHolder)
    {
      var groups := RenderGroups(optionals);
      var body := GetBodyBlocks(groups);
      ok, payload, posted := SendLifecycle(TrainingStart, id, body, None, None, transport);
    }

    /** Reports the progress of job `id`, laid out as the start notice is. */
    method SendProgress(id: string, optionals: Option<seq<Dict>> := None, transport: Message -> PostResult)
      returns (ok: bool, payload: string, ghost posted: Message)
      modifies this
      ensures posted.channel == channelId && posted.text == MobileText(Progress, id)
      ensures posted.blocks == [Header(HeaderTitle(Progress, id)), Divider] + BodyLayout(CappedGroups(optionals))
      ensures posted.threadTs == old(GetTs(id))
      ensures posted.replyBroadcast == None && posted.iconEmoji == None
      ensures ok <==> transport(posted).Posted?
      ensures payload == if ok then "" else transport(posted).code
      ensures !ok ==> tsHolder == old(tsHolder)
      ensures ok && id !in old(tsHolder) ==> tsHolder == old(tsHolder)[id := transport(posted).ts]
      ensures ok && id in old(tsHolder) ==> tsHolder == old(tsHolder)
    {
      var groups := RenderGroups(optionals);
      var body := GetBodyBlocks(groups);
      ok, payload, posted := SendLifecycle(Progress, id, body, None, None, transport);
    }

    /**
     * Reports an error of job `id`: one section with every pair of `optional`
     * (none when it is absent), broadcast to the channel as `replyBroadcast`
     * says, with the warning icon.
     */
    method SendError(id: string, optional: Option<Dict>, replyBroadcast: bool := true, transport: Message -> PostResult)
      returns (ok: bool, payload: string, ghost posted: Message)
      modifies this
      ensures posted.channel == channelId && posted.text == MobileText(Error, id)
      ensures posted.blocks == [Header(HeaderTitle(Error, id)), Divider,
                                Section(if optional.None? then [] else Rendered(KeyColonValue, optional.value))]
      ensures posted.threadTs == old(GetTs(id))
      ensures posted.replyBroadcast == Some(replyBroadcast) && posted.iconEmoji == Some(WarningIcon)
      ensures ok <==> transport(posted).Posted?
      ensures payload == if ok then "" else transport(posted).code
      ensures !ok ==> tsHolder == old(tsHolder)
      ensures ok && id !in old(tsHolder) ==> tsHolder == old(tsHolder)[id := transport(posted).ts]
      ensures ok && id in old(tsHolder) ==> tsHolder == old(tsHolder)
    {
      var bodyFields := [];
      if optional.Some? {
        bodyFields := RenderAll(KeyColonValue, optional.value);
      }
      var bodyBlock := Section(bodyFields);
      ok, payload, posted := SendLifecycle(Error, id, [bodyBlock], Some(replyBroadcast), Some(WarningIcon), transport);
    }

    /** Reports the result of job `id`: one section with every pair of `optional`. */
    method SendResult(id: string, optional: Dict, transport: Message -> PostResult)
      returns (ok: bool, payload: string, ghost posted: Message)
      modifies this
      ensures posted.channel == channelId && posted.text == MobileText(Result, id)
      ensures posted.blocks == [Header(HeaderTitle(Result, id)), Divider, Section(Rendered(KeySpaceColonValue, optional))]
      ensures posted.threadTs == old(GetTs(id))
      ensures posted.replyBroadcast == None && posted.iconEmoji == None
      ensures ok <==> transport(posted).Posted?
      ensures payload == if ok then "" else transport(posted).code
      ensures !ok ==> tsHolder == old(tsHolder)
      ensures ok && id !in old(tsHolder) ==> tsHolder == old(tsHolder)[id := transport(posted).ts]
      ensures ok && id in old(tsHolder) ==> tsHolder == old(tsHolder)
    {
      var bodyFields := RenderAll(KeySpaceColonValue, optional);
      var bodyBlock := Section(bodyFields);
      ok, payload, posted := SendLifecycle(Result, id, [bodyBlock], None, None, transport);
    }
  }

  /**
   * A client of the notifier: a failed post leaves no thread behind, the first
   * successful notice opens the thread, and every later notice for the job is
   * posted into it while the stored timestamp stays the first one.
   */
  method ThreadingScenario()
  {
    var manager := new TrainingManager("U0001", "D0001");
    var failing := (m: Message) => ApiError("ratelimited");
    var ok: bool, payload: string;
    ghost var posted: Message;

    ok, payload, posted := manager.SendProgress("job", transport := failing);
    assert !ok && payload == "ratelimited" && manager.GetTs("job") == None;

    ok, payload, posted := manager.SendTrainingStart("job", transport := (m: Message) => Posted("1700000000.000100"));
    assert ok && payload == "" && posted.threadTs == None;
    assert manager.GetTs("job") == Some("1700000000.000100");

    ok, payload, posted := manager.SendProgress("job", Some([[("loss", "0.25")]]), (m: Message) => Posted("1700000000.000200"));
    assert posted.threadTs == Some("1700000000.000100");
    assert manager.GetTs("job") == Some("1700000000.000100");

    ok, payload, posted := manager.SendError("job", None, transport := failing);
    assert posted.threadTs == Some("1700000000.000100") && posted.replyBroadcast == Some(true);
    assert !ok && manager.GetTs("job") == Some("1700000000.000100");

    ok, payload, posted := manager.SendResult("other", [], (m: Message) => Posted("1700000000.000300"));
    assert posted.threadTs == None;
    assert manager.GetTs("other") == Some("1700000000.000300");
    assert manager.GetTs("job") == Some("1700000000.000100");
  }

  /** Twelve pairs given to a start notice come out as ten fields. */
  method TruncationScenario()
  {
    var twelve := seq(12, k => ("k", "v"));
    var fields := RenderCapped(twelve);
    assert |fields| == 10;
    var everything := RenderAll(KeyColonValue, twelve);
    assert |everything| == 12;
  }
}
