/** `useConversations`: the sidebar's conversation list, the fetch that fills
    it, and the creation of a client-made placeholder conversation. */
module ConversationList {
  import opened ChatTypes
  import opened JsText

  const NewConversationTitle: string := "New Conversation"

  /** `temp-${Date.now()}` */
  function TempId(now: nat): (r: string)
    ensures StartsWith(r, "temp-") && |r| > |"temp-"|
    ensures forall k :: |"temp-"| <= k < |r| ==> IsDigit(r[k])
  {
    var r := "temp-" + Decimal(now);
    assert r[..|"temp-"|] == "temp-";
    r
  }

  /** Calls at different times make different temp ids. */
  lemma TempIdInjective(a: nat, b: nat)
    ensures TempId(a) == TempId(b) ==> a == b
  {
    if TempId(a) == TempId(b) {
      assert TempId(a)[|"temp-"|..] == Decimal(a);
      assert TempId(b)[|"temp-"|..] == Decimal(b);
      DecimalInjective(a, b);
    }
  }

  /** How many entries carry `id`. */
  function CountId(cs: seq<Conversation>, id: string): nat {
    if cs == [] then 0 else (if cs[0].id == id then 1 else 0) + CountId(cs[1..], id)
  }

  /** The list after `setConversations(prev => [placeholder, ...prev])`: the
      placeholder comes first and the previous entries follow in order. There
      is no check for an entry with the same id already being present. */
  function PrependPlaceholder(cs: seq<Conversation>, tempId: string, nowIso: string): (r: seq<Conversation>)
    ensures |r| == |cs| + 1
    ensures r[0].id == tempId && r[0].title == Some(NewConversationTitle) && r[0].updatedAt == Some(nowIso)
    ensures forall k :: 0 <= k < |cs| ==> r[k + 1] == cs[k]
    ensures CountId(r, tempId) == CountId(cs, tempId) + 1
  {
    var r := [Conversation(tempId, Some(NewConversationTitle), Some(nowIso))] + cs;
    assert r[1..] == cs;
    r
  }

  /** Creating two conversations adds two entries even when both calls draw
      the same time (and so the same temp id). */
  lemma NoDuplicateCheck(cs: seq<Conversation>, now: nat, iso1: string, iso2: string)
    ensures var once := PrependPlaceholder(cs, TempId(now), iso1);
            var twice := PrependPlaceholder(once, TempId(now), iso2);
            |twice| == |cs| + 2 && CountId(twice, TempId(now)) == CountId(cs, TempId(now)) + 2
  {
  }

  class ConversationStore {
    var conversations: seq<Conversation>
    /** The shared `tempConversationId` state cell. */
    var tempConversationId: Option<string>
    /** Paths passed to `navigate`, oldest first. */
    var navigations: seq<string>

    constructor (tempConversationId: Option<string>)
      ensures conversations == [] && this.tempConversationId == tempConversationId && navigations == []
    {
      conversations := [];
      this.tempConversationId := tempConversationId;
      navigations := [];
    }

    /** The fetch effect: without a token nothing is fetched; a successful
        fetch replaces the whole list; a failed one is only logged. */
    method LoadConversations(accessToken: Option<string>, response: Option<seq<Conversation>>)
      modifies this
      ensures conversations == (if Truthy(accessToken) && response.Some? then response.value else old(conversations))
      ensures tempConversationId == old(tempConversationId) && navigations == old(navigations)
    {
      if !Truthy(accessToken) {
        return;
      }
      if response.Some? {
        conversations := response.value;
      }
    }

    /** `createNewConversation`: records `temp-<now>` as the temp id, puts a
        "New Conversation" placeholder in front of the list, and navigates to
        `/chat`. `now` is `Date.now()`, `nowIso` is `new Date().toISOString()`. */
    method CreateNewConversation(now: nat, nowIso: string)
      modifies this
      ensures tempConversationId == Some(TempId(now))
      ensures conversations == PrependPlaceholder(old(conversations), TempId(now), nowIso)
      ensures navigations == old(navigations) + ["/chat"]
    {
      var tempId := TempId(now);
      tempConversationId := Some(tempId);
      conversations := [Conversation(tempId, Some(NewConversationTitle), Some(nowIso))] + conversations;
      navigations := navigations + ["/chat"];
    }
  }
}
