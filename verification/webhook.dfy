/** The decision the webhook makes about one relayed SMS: whether the store
    changes and to which flag, and which reply goes out, from whom and to
    whom. The classification is an ordered, case-sensitive substring test:
    "SUBSCRIBE" first, then "STOP", then the default reply. */
module Webhook {
  import opened Wrappers
  import opened Sms
  import opened SubscriberDb

  const SUBSCRIBED_REPLY := "You've been subscribed! Reply \"STOP\" to stop receiving these messages."
  const UNSUBSCRIBED_REPLY := "You've been unsubscribed! Reply \"SUBSCRIBE\" if you changed your mind!"
  const INSTRUCTIONS_REPLY := "SMS \"SUBSCRIBE\" to this number to subscribe to these messages."

  /** A single write of a flag for a number. */
  datatype Upsert = Upsert(key: string, value: string)

  /** What one webhook request does: an optional store write and an optional
      reply sent through the gateway. */
  datatype Action = Action(upsert: Option<Upsert>, send: Option<SmsRequest>)

  /** sub occurs in s starting at index i. */
  ghost predicate OccursAt(sub: string, s: string, i: int)
  {
    0 <= i <= |s| - |sub| && s[i..i + |sub|] == sub
  }

  /** sub occurs somewhere in s: the reference meaning of a substring test. */
  ghost predicate Occurs(sub: string, s: string)
  {
    exists i :: OccursAt(sub, s, i)
  }

  /** Substring test by scanning s from the left; the empty string occurs
      everywhere. */
  function Contains(s: string, sub: string): bool
    decreases |s|
  {
    if |s| < |sub| then false
    else if s[..|sub|] == sub then true
    else Contains(s[1..], sub)
  }

  /** The scanning test agrees with the reference meaning, in both directions. */
  lemma {:induction false} ContainsIsOccurs(s: string, sub: string)
    ensures Contains(s, sub) <==> Occurs(sub, s)
    decreases |s|
  {
    if |s| < |sub| {
      assert !Occurs(sub, s);
    } else if s[..|sub|] == sub {
      assert OccursAt(sub, s, 0);
    } else {
      ContainsIsOccurs(s[1..], sub);
      if Occurs(sub, s[1..]) {
        var i :| OccursAt(sub, s[1..], i);
        assert s[1..][i..i + |sub|] == s[i + 1..i + 1 + |sub|];
        assert OccursAt(sub, s, i + 1);
      }
      if Occurs(sub, s) {
        var i :| OccursAt(sub, s, i);
        assert i != 0;
        assert s[1..][i - 1..i - 1 + |sub|] == s[i..i + |sub|];
        assert OccursAt(sub, s[1..], i - 1);
      }
    }
  }

  /** The webhook's decision for one request. Only POST requests act; both
      numbers are the form values with "+" in front; the first matching
      keyword wins. */
  function Decide(httpMethod: string, receiver: string, originator: string, payload: string): (a: Action)
    ensures httpMethod != "POST" ==> a.upsert == None && a.send == None
    ensures httpMethod == "POST" ==> a.send.Some? && a.send.value.recipients == ["+" + originator]
    ensures httpMethod == "POST" && Occurs("SUBSCRIBE", payload) ==>
              && a.upsert == Some(Upsert("+" + originator, YES))
              && a.send.value == SmsRequest(SUBSCRIBED_REPLY, DEFAULT_ORIGINATOR, ["+" + originator])
    ensures httpMethod == "POST" && !Occurs("SUBSCRIBE", payload) && Occurs("STOP", payload) ==>
              && a.upsert == Some(Upsert("+" + originator, NO))
              && a.send.value == SmsRequest(UNSUBSCRIBED_REPLY, DEFAULT_ORIGINATOR, ["+" + originator])
    ensures httpMethod == "POST" && !Occurs("SUBSCRIBE", payload) && !Occurs("STOP", payload) ==>
              && a.upsert == None
              && a.send.value == SmsRequest(INSTRUCTIONS_REPLY, "+" + receiver, ["+" + originator])
  {
    ContainsIsOccurs(payload, "SUBSCRIBE");
    ContainsIsOccurs(payload, "STOP");
    if httpMethod != "POST" then Action(None, None)
    else
      var thisNumber := "+" + receiver;
      var subscriber := "+" + originator;
      if Contains(payload, "SUBSCRIBE") then
        Action(Some(Upsert(subscriber, YES)), Some(SmsRequest(SUBSCRIBED_REPLY, DEFAULT_ORIGINATOR, [subscriber])))
      else if Contains(payload, "STOP") then
        Action(Some(Upsert(subscriber, NO)), Some(SmsRequest(UNSUBSCRIBED_REPLY, DEFAULT_ORIGINATOR, [subscriber])))
      else
        Action(None, Some(SmsRequest(INSTRUCTIONS_REPLY, thisNumber, [subscriber])))
  }

  /** The store after an action's write, if it has one. */
  function Apply(m: map<string, string>, a: Action): map<string, string>
  {
    match a.upsert
    case None => m
    case Some(u) => m[u.key := u.value]
  }

  /** A webhook request touches at most the originator's entry: every other
      number keeps its presence and its flag. */
  lemma WebhookFrame(m: map<string, string>, httpMethod: string, receiver: string, originator: string, payload: string, k: string)
    requires k != "+" + originator
    ensures var m' := Apply(m, Decide(httpMethod, receiver, originator, payload));
            (k in m' <==> k in m) && (k in m ==> m'[k] == m[k])
  {
  }

  /** How a webhook request moves the originator in or out of the active
      set: a payload containing "SUBSCRIBE" activates, otherwise one
      containing "STOP" deactivates, and anything else leaves the active set
      as it was. */
  lemma WebhookActiveSet(m: map<string, string>, httpMethod: string, receiver: string, originator: string, payload: string)
    ensures var m' := Apply(m, Decide(httpMethod, receiver, originator, payload));
            ActiveSet(m') ==
              if httpMethod == "POST" && Occurs("SUBSCRIBE", payload) then ActiveSet(m) + {"+" + originator}
              else if httpMethod == "POST" && Occurs("STOP", payload) then ActiveSet(m) - {"+" + originator}
              else ActiveSet(m)
  {
    var a := Decide(httpMethod, receiver, originator, payload);
    if a.upsert.Some? {
      ActiveAfterUpsert(m, a.upsert.value.key, a.upsert.value.value);
    }
  }

  /** Because the test is a substring test, "UNSUBSCRIBE" subscribes. */
  lemma UnsubscribeSubscribes(receiver: string, originator: string)
    ensures Decide("POST", receiver, originator, "UNSUBSCRIBE").upsert == Some(Upsert("+" + originator, YES))
  {
    assert OccursAt("SUBSCRIBE", "UNSUBSCRIBE", 2);
  }

  /** Because the test is case-sensitive, a lower-case "stop" only gets the
      instructions and changes nothing. */
  lemma LowerCaseStopIgnored(receiver: string, originator: string)
    ensures Decide("POST", receiver, originator, "stop") ==
              Action(None, Some(SmsRequest(INSTRUCTIONS_REPLY, "+" + receiver, ["+" + originator])))
  {
    assert !Contains("stop", "SUBSCRIBE");
    assert "stop"[..4][0] != "STOP"[0];
    assert !Contains("stop"[1..], "STOP");
  }

  /** A payload with both keywords subscribes: the first case wins. */
  lemma SubscribeBeatsStop(receiver: string, originator: string)
    ensures Decide("POST", receiver, originator, "STOP SUBSCRIBE").upsert == Some(Upsert("+" + originator, YES))
  {
    assert OccursAt("SUBSCRIBE", "STOP SUBSCRIBE", 5);
  }
}
