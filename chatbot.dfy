/**
 * `src/components/ChatbotWidget.tsx`: the chat panel. It holds the
 * transcript, the composer's text and the panel's open flag; sending appends
 * the user's clamped text and the engine's reply, and a quick action either
 * applies a draft, scrolls, or opens a link.
 */
module Chatbot {
  import opened Wrappers
  import opened Strings
  import opened Utils
  import opened LeadDraft
  import opened Engine

  /** The default `n` of `clampLen`. */
  const CLAMP_LEN := 600
  const ELLIPSIS: char := '\U{2026}'
  const TEL_HREF := "tel:+917498369191"
  const ESCALATE_TEXT := "Hi! I need help finding a rental home in Mumbai."

  /** `clampLen(s)`: the trimmed text, cut to 600 characters plus an ellipsis when longer. */
  function ClampLen(s: string): (r: string)
    ensures |Trim(s)| <= CLAMP_LEN ==> r == Trim(s)
    ensures |Trim(s)| > CLAMP_LEN ==> r == Trim(s)[..CLAMP_LEN] + [ELLIPSIS]
    ensures |r| <= CLAMP_LEN + 1
    ensures r == [] <==> Trim(s) == []
  {
    var t := Trim(s);
    if |t| <= CLAMP_LEN then t else t[..CLAMP_LEN] + [ELLIPSIS]
  }

  /** A clamped text is clamped already: trimming finds nothing and a cut text keeps its ellipsis. */
  lemma ClampLenIdempotent(s: string)
    ensures ClampLen(ClampLen(s)) == ClampLen(s)
  {
    var t := Trim(s);
    var r := ClampLen(s);
    if |t| > CLAMP_LEN {
      assert r[0] == t[0] && r[|r| - 1] == ELLIPSIS;
      TrimIdentity(r);
      assert r[..CLAMP_LEN] == t[..CLAMP_LEN];
    } else {
      TrimIdentity(t);
    }
  }

  /** `waLink(phone10, text)`: the shared recipient rule and the text as given. */
  function ChatWaLink(phone10: string, text: string): (r: WaLink)
    ensures r.recipient == WaRecipient(phone10) && r.text == text
  {
    WaLink(WaRecipient(phone10), text)
  }

  /** The quick actions of `initialBotMessage`. */
  const WELCOME_ACTIONS: seq<QuickAction> := [
    Scroll("Find a Home", LEAD_ID),
    Scroll("How it works", "how"),
    WhatsApp("WhatsApp us", "Hi! I want to find a rental home. Please share options.")
  ]

  /** What a bot message says: the fixed welcome, or an engine reply. */
  datatype BotText = Welcome | Answer(reply: Reply)

  /** A transcript entry; ids and timestamps are left out. */
  datatype Msg = UserMsg(text: string) | BotMsg(body: BotText, quickActions: seq<QuickAction>)

  /**
   * `initial`: one welcome message. `initialBotMessage` takes the phone in its
   * context but does not use it.
   */
  function InitialMessages(phone10: string): (r: seq<Msg>)
    ensures |r| == 1 && r[0].BotMsg? && r[0].body == Welcome
  {
    [BotMsg(Welcome, WELCOME_ACTIONS)]
  }

  /** The bot message an engine reply becomes. */
  function AnswerMsg(reply: Reply): Msg {
    BotMsg(Answer(reply), reply.quickActions)
  }

  /**
   * The shape every transcript keeps: the welcome, then user messages and
   * engine answers alternating.
   */
  predicate WellFormed(ms: seq<Msg>) {
    |ms| % 2 == 1 && ms[0] == BotMsg(Welcome, WELCOME_ACTIONS) &&
    (forall i :: 0 < i < |ms| && i % 2 == 1 ==> ms[i].UserMsg?) &&
    (forall i :: 0 < i < |ms| && i % 2 == 0 ==> ms[i].BotMsg? && ms[i].body.Answer?)
  }

  /** A turn extends a well-formed transcript to a well-formed one. */
  lemma TurnKeepsWellFormed(ms: seq<Msg>, t: string, answer: Msg)
    requires WellFormed(ms) && answer.BotMsg? && answer.body.Answer?
    ensures WellFormed(ms + [UserMsg(t)] + [answer])
  {
    var ms' := ms + [UserMsg(t)] + [answer];
    forall i | 0 < i < |ms'| && i % 2 == 1 ensures ms'[i].UserMsg? {
      if i >= |ms| { assert i == |ms|; }
    }
    forall i | 0 < i < |ms'| && i % 2 == 0 ensures ms'[i].BotMsg? && ms'[i].body.Answer? {
      if i >= |ms| { assert i == |ms| + 1; }
    }
  }

  /**
   * In a well-formed transcript a single bot message is the welcome, so the
   * reset on a phone change puts back the very same message.
   */
  lemma ResetIsInvisible(ms: seq<Msg>, phone10: string)
    requires WellFormed(ms) && |ms| == 1 && ms[0].BotMsg?
    ensures InitialMessages(phone10) == ms
  {
  }

  /** What a quick action asks of the page once the panel's state is updated. */
  datatype Effect =
    | ScrollTo(id: string)
    | OpenWhatsApp(link: WaLink)
    | Navigate(href: string)
    | OpenTab(href: string)

  /** `(a as any).scrollToId || "lead"` */
  function ScrollTarget(scrollToId: Option<string>): (r: string)
    ensures r != ""
    ensures scrollToId.Some? && scrollToId.value != "" ==> r == scrollToId.value
  {
    if scrollToId.Some? && scrollToId.value != "" then scrollToId.value else LEAD_ID
  }

  /** The chat panel's state and the shared draft store it writes to. */
  class ChatPanel {
    var open: bool
    var input: string
    var messages: seq<Msg>
    var phone10: string
    const store: DraftStore

    /** The transcript keeps its shape. */
    predicate Valid()
      reads this
    {
      WellFormed(messages)
    }

    /** `useState(false)`, `useState("")`, `useState(initial)` */
    constructor (phone10: string, store: DraftStore)
      ensures Valid() && !open && input == "" && messages == InitialMessages(phone10)
      ensures this.phone10 == phone10 && this.store == store
    {
      open := false;
      input := "";
      messages := InitialMessages(phone10);
      this.phone10 := phone10;
      this.store := store;
    }

    /** The launcher button. */
    method Toggle()
      modifies this
      ensures open == !old(open)
      ensures input == old(input) && messages == old(messages) && phone10 == old(phone10)
    {
      open := !open;
    }

    /** The composer's `onChange`. */
    method SetInput(v: string)
      modifies this
      ensures input == v
      ensures open == old(open) && messages == old(messages) && phone10 == old(phone10)
    {
      input := v;
    }

    /** `pushUser(text)` */
    method PushUser(text: string)
      modifies this
      ensures messages == old(messages) + [UserMsg(text)]
      ensures open == old(open) && input == old(input) && phone10 == old(phone10)
    {
      messages := messages + [UserMsg(text)];
    }

    /** `pushBot(text, quickActions)` for an engine reply. */
    method PushBot(reply: Reply)
      modifies this
      ensures messages == old(messages) + [AnswerMsg(reply)]
      ensures open == old(open) && input == old(input) && phone10 == old(phone10)
    {
      messages := messages + [AnswerMsg(reply)];
    }

    /**
     * `handleSend()`: nothing for a blank composer; otherwise the clamped text,
     * then the engine's reply to it, and the composer is cleared.
     */
    method HandleSend()
      requires Valid()
      modifies this
      ensures Valid() && open == old(open) && phone10 == old(phone10)
      ensures ClampLen(old(input)) == "" ==> messages == old(messages) && input == old(input)
      ensures ClampLen(old(input)) != "" ==>
        messages == old(messages) + [UserMsg(ClampLen(old(input)))] + [AnswerMsg(ReplyToUser(ClampLen(old(input))))]
      ensures ClampLen(old(input)) != "" ==> input == ""
      ensures old(messages) <= messages
    {
      var t := ClampLen(input);
      if t == "" {
        return;
      }
      Exchange(t, ReplyToUser(t));
    }

    /** The non-blank half of `handleSend`: the user's text, the cleared composer, the reply. */
    method Exchange(t: string, reply: Reply)
      requires Valid()
      modifies this
      ensures Valid() && open == old(open) && phone10 == old(phone10)
      ensures messages == old(messages) + [UserMsg(t)] + [AnswerMsg(reply)] && input == ""
    {
      PushUser(t);
      input := "";
      PushBot(reply);
      TurnKeepsWellFormed(old(messages), t, AnswerMsg(reply));
    }

    /** The effect of a phone change: reset only while the transcript is one bot message. */
    method PhoneChanged(p: string)
      requires Valid()
      modifies this
      ensures Valid() && phone10 == p && open == old(open) && input == old(input)
      ensures |old(messages)| == 1 && old(messages)[0].BotMsg? ==> messages == InitialMessages(p)
      ensures !(|old(messages)| == 1 && old(messages)[0].BotMsg?) ==> messages == old(messages)
      ensures messages == old(messages)
    {
      phone10 := p;
      if |messages| == 1 && messages[0].BotMsg? {
        ResetIsInvisible(messages, p);
        messages := InitialMessages(p);
      }
    }

    /** The panel's escalation link. */
    function EscalateLink(): WaLink
      reads this
    {
      ChatWaLink(phone10, ESCALATE_TEXT)
    }

    /**
     * `handleQuickAction(a)`: applying a draft merges it into the store, closes
     * the panel and scrolls to its target; a scroll closes and scrolls; the
     * other kinds leave the panel as it is and open a link.
     */
    method HandleQuickAction(a: QuickAction) returns (e: Effect)
      modifies this, store
      ensures messages == old(messages) && input == old(input) && phone10 == old(phone10)
      ensures a.ApplyDraft? ==>
        store.draft == Merge(old(store.draft), a.draft) && !open && e == ScrollTo(ScrollTarget(a.scrollToId))
      ensures !a.ApplyDraft? ==> store.draft == old(store.draft)
      ensures a.Scroll? ==> !open && e == ScrollTo(a.targetId)
      ensures a.WhatsApp? ==> open == old(open) && e == OpenWhatsApp(ChatWaLink(phone10, a.text))
      ensures a.Tel? ==> open == old(open) && e == Navigate(TEL_HREF)
      ensures a.Link? ==> open == old(open) && e == OpenTab(a.href)
    {
      match a
      case ApplyDraft(_, patch, scrollToId) =>
        store.SetDraft(patch);
        open := false;
        e := ScrollTo(ScrollTarget(scrollToId));
      case Scroll(_, targetId) =>
        open := false;
        e := ScrollTo(targetId);
      case WhatsApp(_, text) =>
        e := OpenWhatsApp(ChatWaLink(phone10, text));
      case Tel(_) =>
        e := Navigate(TEL_HREF);
      case Link(_, href) =>
        e := OpenTab(href);
    }
  }

  /**
   * Sending text that carries preferences, then taking its first quick action,
   * writes exactly the parsed patch into the store.
   */
  lemma CapturedReplyAppliesPatch(t: string)
    requires ReplyToUser(t).topic == Captured
    ensures ReplyToUser(t).quickActions[0].ApplyDraft?
    ensures ReplyToUser(t).quickActions[0].draft == Extract(t).patch
    ensures ScrollTarget(ReplyToUser(t).quickActions[0].scrollToId) == LEAD_ID
  {
  }
}
