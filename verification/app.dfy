/** The running application: the shared subscriber map updated in place, the
    webhook handler that applies the decision of Webhook.Decide to it, and the
    landing page handler with the subscriber list it captured when it was
    built. */
module App {
  import opened Wrappers
  import opened Sms
  import opened SubscriberDb
  import opened Webhook

  /** The application context: the process-wide subscriber map. */
  class AppContext {
    var db: map<string, string>

    /** The application starts with an empty store. */
    constructor ()
      ensures db == map[]
    {
      db := map[];
    }

    /** Loads the subscriber table. table is what opening and parsing the
        file produced: on a failure the error is returned and the store is
        left as it was; otherwise every row is written into the store, in
        order, the first field being the number and the second the flag. */
    method InitDB(table: Result<seq<Row>, string>) returns (err: Option<string>)
      requires table.Success? ==> WellFormed(table.value)
      modifies this
      ensures table.Failure? ==> err == Some(table.error) && db == old(db)
      ensures table.Success? ==> err == None && db == Loaded(old(db), table.value)
      ensures table.Success? ==> db.Keys == old(db).Keys + RowKeys(table.value)
    {
      if table.Failure? {
        return Some(table.error);
      }
      var rows := table.value;
      var i := 0;
      while i < |rows|
        invariant 0 <= i <= |rows|
        invariant WellFormed(rows[..i])
        invariant db == Loaded(old(db), rows[..i])
      {
        assert rows[..i + 1][..i] == rows[..i];
        db := db[rows[i][0] := rows[i][1]];
        i := i + 1;
      }
      assert rows[..|rows|] == rows;
      LoadedKeys(old(db), rows);
      err := None;
    }

    /** The active subscribers, each once, in whatever order the keys are
        visited. The error result is always absent. */
    method GetSubscriberList() returns (subscribers: seq<string>, err: Option<string>)
      ensures err == None
      ensures forall k :: k in subscribers <==> k in ActiveSet(db)
      ensures Distinct(subscribers)
      ensures |subscribers| == |ActiveSet(db)|
    {
      subscribers := [];
      var unvisited := db.Keys;
      while unvisited != {}
        invariant unvisited <= db.Keys
        invariant forall k :: k in subscribers <==> k in db && k !in unvisited && db[k] == YES
        invariant Distinct(subscribers)
        decreases unvisited
      {
        var k :| k in unvisited;
        if db[k] == YES {
          subscribers := subscribers + [k];
        }
        unvisited := unvisited - {k};
      }
      err := None;
      DistinctCardinality(subscribers);
      assert (set x | x in subscribers) == ActiveSet(db);
    }

    /** Writes one flag for one number, whatever the flag; nothing else in
        the store changes. The error result is always absent. */
    method UpsertDB(key: string, value: string) returns (err: Option<string>)
      modifies this
      ensures err == None
      ensures db == old(db)[key := value]
      ensures ActiveSet(db) == if value == YES then old(ActiveSet(db)) + {key} else old(ActiveSet(db)) - {key}
    {
      ActiveAfterUpsert(db, key, value);
      db := db[key := value];
      err := None;
    }

    /** Handles one webhook request: classifies the payload, writes the
        originator's flag when a keyword matched, and returns the reply it
        hands to the gateway. The gateway's result is only logged, so it
        does not appear here. */
    method UpdateSubscription(httpMethod: string, receiver: string, originator: string, payload: string)
      returns (sent: Option<SmsRequest>)
      modifies this
      ensures db == Apply(old(db), Decide(httpMethod, receiver, originator, payload))
      ensures sent == Decide(httpMethod, receiver, originator, payload).send
      ensures forall k :: k != "+" + originator ==> (k in db <==> k in old(db)) && (k in db ==> db[k] == old(db)[k])
    {
      sent := None;
      if httpMethod == "POST" {
        var thisNumber := "+" + receiver;
        var subscriber := "+" + originator;
        if Contains(payload, "SUBSCRIBE") {
          var err := UpsertDB(subscriber, YES);
          sent := Some(SmsRequest(SUBSCRIBED_REPLY, DEFAULT_ORIGINATOR, [subscriber]));
        } else if Contains(payload, "STOP") {
          var err := UpsertDB(subscriber, NO);
          sent := Some(SmsRequest(UNSUBSCRIBED_REPLY, DEFAULT_ORIGINATOR, [subscriber]));
        } else {
          sent := Some(SmsRequest(INSTRUCTIONS_REPLY, thisNumber, [subscriber]));
        }
      }
    }
  }

  /** The status line of the landing page. */
  datatype Status = NoStatus | SendFailed(error: string) | SentTo(count: nat)

  /** What the landing page shows. */
  datatype PageData = PageData(subscriberCount: nat, message: Status)

  /** The landing page handler. The subscriber list is read once, when the
      handler is built, and every later request uses that snapshot; the
      status line set by one request is still shown by the next. */
  class LandingHandler {
    const subscriberList: seq<string>
    var templateData: PageData

    /** The count shown is always the length of the snapshot. */
    ghost predicate Valid()
      reads this
    {
      templateData.subscriberCount == |subscriberList|
    }

    /** Takes the snapshot of the active subscribers of app's store. */
    constructor (app: AppContext)
      ensures Valid()
      ensures forall k :: k in subscriberList <==> k in ActiveSet(app.db)
      ensures Distinct(subscriberList)
      ensures templateData == PageData(|ActiveSet(app.db)|, NoStatus)
    {
      var list, err := app.GetSubscriberList();
      subscriberList := list;
      templateData := PageData(|list|, NoStatus);
    }

    /** Serves one request. A POST broadcasts message from the fixed sender
        to the snapshot, even when the snapshot is empty; sendError is the
        gateway's answer to that send. Every request renders the page. */
    method Serve(httpMethod: string, message: string, sendError: Option<string>)
      returns (request: Option<SmsRequest>, page: PageData)
      requires Valid()
      modifies this
      ensures Valid()
      ensures request == if httpMethod == "POST" then Some(SmsRequest(message, DEFAULT_ORIGINATOR, subscriberList)) else None
      ensures templateData.subscriberCount == old(templateData.subscriberCount)
      ensures templateData.message ==
                if httpMethod != "POST" then old(templateData.message)
                else if sendError.Some? then SendFailed(sendError.value)
                else SentTo(|subscriberList|)
      ensures page == templateData
    {
      request := None;
      if httpMethod == "POST" {
        request := Some(SmsRequest(message, DEFAULT_ORIGINATOR, subscriberList));
        if sendError.Some? {
          templateData := templateData.(message := SendFailed(sendError.value));
        } else {
          templateData := templateData.(message := SentTo(|subscriberList|));
        }
      }
      page := templateData;
    }
  }

  /** A number that subscribes after the landing handler was built is in the
      live store but not in the count the page shows. */
  method StaleSnapshot() returns (shown: nat, live: nat)
    ensures shown == 0 && live == 1
  {
    var app := new AppContext();
    var landing := new LandingHandler(app);
    assert OccursAt("SUBSCRIBE", "SUBSCRIBE", 0);
    assert "+" + "1999" == "+1999";
    var sent := app.UpdateSubscription("POST", "14708000894", "1999", "SUBSCRIBE");
    assert app.db == map["+1999" := YES];
    assert ActiveSet(app.db) == {"+1999"};
    var request, page := landing.Serve("GET", "", None);
    shown := page.subscriberCount;
    var list, err := app.GetSubscriberList();
    live := |list|;
  }
}
