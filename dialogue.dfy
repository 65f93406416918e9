/** The per-user dialogue of the Telegram bot: the global `user_states` map and
    one method per handler. Replies, keyboards and photo delivery are chat
    transport; a handler only reports which branch it took. */
module Dialogue {
  import opened Common
  import opened Generation

  type UserId = int

  /** The `name` ids of the style catalog, in catalog order. */
  const STYLE_CATALOG: seq<string> := ["KANDINSKY", "UHD", "ANIME", "DEFAULT"]

  const DEFAULT_STYLE: string := "DEFAULT"

  /** Where `/generate` saves the images: the default `save_path`. */
  const SAVE_PATH: string := "img"

  /** The values the "awaiting" cursor takes besides `None`. */
  datatype Cursor = Positive | Negative | Style | Generate {
    /** The string the source stores in "awaiting". */
    function Name(): string {
      match this
      case Positive => "positive"
      case Negative => "negative"
      case Style => "style"
      case Generate => "generate"
    }
  }

  /** The key free text is written to: `awaiting + '_request'`. */
  function RequestKey(c: Cursor): (key: string)
    ensures |key| > 8 && key[|key| - 8..] == "_request"
    ensures key != "style" && key != "awaiting"
    ensures key == "positive_request" <==> c == Positive
    ensures key == "negative_request" <==> c == Negative
  {
    assert "style_request"[0] != "positive_request"[0] && "style_request"[0] != "negative_request"[0];
    assert "generate_request"[0] != "positive_request"[0] && "generate_request"[0] != "negative_request"[0];
    c.Name() + "_request"
  }

  /** One user's record. `extra` holds the keys free text adds besides
      "positive_request" and "negative_request". */
  datatype Session = Session(
    positiveRequest: Option<string>,
    negativeRequest: Option<string>,
    style: string,
    awaiting: Option<Cursor>,
    extra: map<string, string>)
  {
    /** What every record in the map satisfies. */
    predicate WellFormed() {
      && style in STYLE_CATALOG
      && extra.Keys <= {"style_request", "generate_request"}
    }

    /** The record after `record[key] = value`, for a key other than "style" and "awaiting". */
    function Put(key: string, value: string): (s: Session)
      requires key != "style" && key != "awaiting"
      ensures s.style == style && s.awaiting == awaiting
      ensures key == "positive_request" ==>
        s.positiveRequest == Some(value) && s.negativeRequest == negativeRequest && s.extra == extra
      ensures key == "negative_request" ==>
        s.negativeRequest == Some(value) && s.positiveRequest == positiveRequest && s.extra == extra
      ensures key != "positive_request" && key != "negative_request" ==>
        && s.positiveRequest == positiveRequest && s.negativeRequest == negativeRequest
        && s.extra.Keys == extra.Keys + {key} && s.extra[key] == value
        && forall k :: k in extra && k != key ==> s.extra[k] == extra[k]
    {
      if key == "positive_request" then this.(positiveRequest := Some(value))
      else if key == "negative_request" then this.(negativeRequest := Some(value))
      else this.(extra := extra[key := value])
    }
  }

  /** The record `reset_user_state` writes. */
  const INITIAL: Session := Session(None, None, DEFAULT_STYLE, None, map[])

  /** The initial record has both prompts unset, the "DEFAULT" style, no cursor and no
      extra keys; it is well formed and not ready for `/generate`. */
  lemma InitialRecord()
    ensures INITIAL.positiveRequest.None? && INITIAL.negativeRequest.None?
    ensures INITIAL.style == "DEFAULT" && INITIAL.awaiting.None? && INITIAL.extra == map[]
    ensures INITIAL.WellFormed() && !ReadyToGenerate(Some(INITIAL))
  {
  }

  /** The guard of `/generate` on `user_states.get(user_id, {})`. */
  predicate ReadyToGenerate(userData: Option<Session>)
    ensures ReadyToGenerate(userData) ==>
      userData.Some? && userData.value.awaiting == Some(Generate)
      && userData.value.positiveRequest.Some? && |userData.value.positiveRequest.value| > 0
    ensures userData.Some? && userData.value.awaiting != Some(Generate) ==> !ReadyToGenerate(userData)
    ensures userData.Some? && !Truthy(userData.value.positiveRequest) ==> !ReadyToGenerate(userData)
  {
    userData.Some? && Truthy(userData.value.positiveRequest)
    && userData.value.awaiting == Some(Generate)
  }

  /** Which branch a handler took. */
  datatype HandlerOutcome =
    | Replied    // the handler ran and replied
    | Silent     // the handler ran and sent nothing
    | KeyError   // `user_states[user_id]` raised: the user has no record
    | Unrouted   // no handler accepted the event

  /** A call `/generate` makes to the provider. */
  datatype ApiCall = ListModels | RunGeneration(request: RunRequest) | GetStatus(uuid: string)

  /** What `/generate` does for the user. */
  datatype GenerateReply =
    | Incomplete                // asks to finish the prompt and the style first
    | Delivered(photo: string)  // sends this file, then "done"
    | GenerationError           // the error message of main.py:101
    | Unhandled(error: Error)   // the exception escapes the handler; nothing is sent

  class Bot {
    var userStates: map<UserId, Session>

    ghost predicate Valid()
      reads this
    {
      forall u :: u in userStates ==> userStates[u].WellFormed()
    }

    /** `user_states.get(user_id)`. */
    function Lookup(userId: UserId): Option<Session>
      reads this
    {
      if userId in userStates then Some(userStates[userId]) else None
    }

    constructor ()
      ensures Valid() && userStates == map[]
    {
      userStates := map[];
    }

    /** `reset_user_state`: the user's record becomes the initial one. */
    method ResetUserState(userId: UserId)
      requires Valid()
      modifies this
      ensures Valid()
      ensures userStates == old(userStates)[userId := INITIAL]
    {
      userStates := userStates[userId := INITIAL];
    }

    /** `/start`. */
    method StartCommand(userId: UserId) returns (outcome: HandlerOutcome)
      requires Valid()
      modifies this
      ensures Valid() && outcome == Replied
      ensures userStates == old(userStates)[userId := INITIAL]
    {
      ResetUserState(userId);
      outcome := Replied;
    }

    /** `/positive`: the cursor moves to "positive". */
    method PositiveRequestCommand(userId: UserId) returns (outcome: HandlerOutcome)
      requires Valid()
      modifies this
      ensures Valid()
      ensures userId !in old(userStates) ==> outcome == KeyError && userStates == old(userStates)
      ensures userId in old(userStates) ==>
        && outcome == Replied
        && userStates == old(userStates)[userId := old(userStates)[userId].(awaiting := Some(Positive))]
    {
      if userId !in userStates {
        return KeyError;
      }
      userStates := userStates[userId := userStates[userId].(awaiting := Some(Positive))];
      outcome := Replied;
    }

    /** `/negative`: the cursor moves to "negative". */
    method NegativeRequestCommand(userId: UserId) returns (outcome: HandlerOutcome)
      requires Valid()
      modifies this
      ensures Valid()
      ensures userId !in old(userStates) ==> outcome == KeyError && userStates == old(userStates)
      ensures userId in old(userStates) ==>
        && outcome == Replied
        && userStates == old(userStates)[userId := old(userStates)[userId].(awaiting := Some(Negative))]
    {
      if userId !in userStates {
        return KeyError;
      }
      userStates := userStates[userId := userStates[userId].(awaiting := Some(Negative))];
      outcome := Replied;
    }

    /** `/skip_negative`: the negative prompt is cleared and the cursor moves to "style". */
    method SkipNegativeCommand(userId: UserId) returns (outcome: HandlerOutcome)
      requires Valid()
      modifies this
      ensures Valid()
      ensures userId !in old(userStates) ==> outcome == KeyError && userStates == old(userStates)
      ensures userId in old(userStates) ==>
        && outcome == Replied
        && userStates == old(userStates)[userId := old(userStates)[userId].(negativeRequest := None,
                                                                           awaiting := Some(Style))]
    {
      if userId !in userStates {
        return KeyError;
      }
      userStates := userStates[userId := userStates[userId].(negativeRequest := None)];
      userStates := userStates[userId := userStates[userId].(awaiting := Some(Style))];
      outcome := Replied;
    }

    /** `/style`: the callback data of the menu buttons, one per catalog entry in
        catalog order; no record changes. */
    method StyleCommand(userId: UserId) returns (menu: seq<string>)
      ensures |menu| == |STYLE_CATALOG|
      ensures forall i :: 0 <= i < |menu| ==> menu[i] == STYLE_CATALOG[i]
    {
      menu := [];
      for i := 0 to |STYLE_CATALOG|
        invariant menu == STYLE_CATALOG[..i]
      {
        menu := menu + [STYLE_CATALOG[i]];
      }
    }

    /** The style callback: routed only for catalog ids; sets the style and moves
        the cursor to "generate". */
    method ProcessStyleSelection(userId: UserId, data: string) returns (outcome: HandlerOutcome)
      requires Valid()
      modifies this
      ensures Valid()
      ensures data !in STYLE_CATALOG ==> outcome == Unrouted && userStates == old(userStates)
      ensures data in STYLE_CATALOG && userId !in old(userStates) ==>
        outcome == KeyError && userStates == old(userStates)
      ensures data in STYLE_CATALOG && userId in old(userStates) ==>
        && outcome == Replied
        && userStates == old(userStates)[userId := old(userStates)[userId].(style := data,
                                                                           awaiting := Some(Generate))]
    {
      if data !in STYLE_CATALOG {
        return Unrouted;
      }
      if userId !in userStates {
        return KeyError;
      }
      userStates := userStates[userId := userStates[userId].(style := data)];
      userStates := userStates[userId := userStates[userId].(awaiting := Some(Generate))];
      outcome := Replied;
    }

    /** `/generate`: only a ready record reaches the provider; the user id is
        passed as the number of poll attempts; no record ever changes. */
    method GenerateImage(userId: UserId, listing: Reply<seq<ModelEntry>>,
                         submitReply: Reply<SubmitBody>, respond: nat -> Reply<StatusBody>)
      returns (reply: GenerateReply, calls: seq<ApiCall>, sleeps: nat)
      requires Valid()
      ensures !ReadyToGenerate(Lookup(userId)) ==> reply == Incomplete && calls == [] && sleeps == 0
      ensures ReadyToGenerate(Lookup(userId)) ==> |calls| >= 1 && calls[0] == ListModels
      ensures ReadyToGenerate(Lookup(userId)) && GetModel(listing).Failure? ==>
        reply == Unhandled(GetModel(listing).error) && calls == [ListModels] && sleeps == 0
      ensures ReadyToGenerate(Lookup(userId)) && GetModel(listing).Success? ==>
        var session := Lookup(userId).value;
        && |calls| >= 2
        && calls[1].RunGeneration?
        && calls[1].request.modelId == GetModel(listing).value
        && ParamsFor(calls[1].request.params, session.positiveRequest.value, session.style,
                     session.negativeRequest, DEFAULT_IMAGES, DEFAULT_SIZE)
        && calls[1].request.params.style in STYLE_CATALOG
      ensures ReadyToGenerate(Lookup(userId)) && GetModel(listing).Success? && submitReply.HttpError? ==>
        reply == Unhandled(TransportError) && |calls| == 2 && sleeps == 0
      ensures ReadyToGenerate(Lookup(userId)) && GetModel(listing).Success?
              && submitReply.Ok? && submitReply.body.uuid.None? ==>
        reply == Unhandled(MissingUuid) && |calls| == 2 && sleeps == 0
      ensures ReadyToGenerate(Lookup(userId)) && GetModel(listing).Success?
              && submitReply.Ok? && submitReply.body.uuid.Some? ==>
        var poll := PollFrom(respond, 0, userId, SAVE_PATH);
        && calls[2..] == Repeat(GetStatus(submitReply.body.uuid.value), poll.requests)
        && poll.requests <= RangeLength(userId)
        && (userId >= 1 ==> poll.requests >= 1)
        && sleeps == poll.sleeps
        && (poll.result.Success? ==>
              |poll.result.value| >= 1 && reply == Delivered(poll.result.value[0]))
        && (poll.result.Failure? ==> reply == Unhandled(poll.result.error))
      ensures reply != GenerationError
    {
      var userData := Lookup(userId);
      if !ReadyToGenerate(userData) {
        return Incomplete, [], 0;
      }
      var session := userData.value;
      calls := [ListModels];
      var model := GetModel(listing);
      if model.Failure? {
        return Unhandled(model.error), calls, 0;
      }
      var request, job := Generation.Generate(session.positiveRequest.value, session.style, model.value,
                                              session.negativeRequest, DEFAULT_IMAGES, DEFAULT_SIZE,
                                              submitReply);
      calls := calls + [RunGeneration(request)];
      if job.Failure? {
        return Unhandled(job.error), calls, 0;
      }
      var images, requests;
      images, requests, sleeps := CheckGeneration(respond, userId, SAVE_PATH);
      SuccessIsNonEmptyAndDistinct(respond, userId, SAVE_PATH);
      PollShape(respond, 0, userId, SAVE_PATH);
      calls := calls + Repeat(GetStatus(job.value), requests);
      if images.Failure? {
        return Unhandled(images.error), calls, sleeps;
      }
      if |images.value| > 0 {
        reply := Delivered(images.value[0]);
      } else {
        reply := GenerationError;
      }
    }

    /** Free text: stored under `awaiting + '_request'`; the cursor moves to
        "negative" after a positive prompt and to "style" after anything else. */
    method SetRequest(userId: UserId, text: string) returns (outcome: HandlerOutcome)
      requires Valid()
      modifies this
      ensures Valid()
      ensures (userId !in old(userStates) || old(userStates)[userId].awaiting.None?) ==>
        outcome == Silent && userStates == old(userStates)
      ensures userId in old(userStates) && old(userStates)[userId].awaiting == Some(Positive) ==>
        userStates == old(userStates)[userId := old(userStates)[userId].(positiveRequest := Some(text),
                                                                        awaiting := Some(Negative))]
      ensures userId in old(userStates) && old(userStates)[userId].awaiting == Some(Negative) ==>
        userStates == old(userStates)[userId := old(userStates)[userId].(negativeRequest := Some(text),
                                                                        awaiting := Some(Style))]
      ensures userId in old(userStates) && old(userStates)[userId].awaiting == Some(Style) ==>
        var s := old(userStates)[userId];
        userStates == old(userStates)[userId := s.(extra := s.extra["style_request" := text],
                                                   awaiting := Some(Style))]
      ensures userId in old(userStates) && old(userStates)[userId].awaiting == Some(Generate) ==>
        var s := old(userStates)[userId];
        userStates == old(userStates)[userId := s.(extra := s.extra["generate_request" := text],
                                                   awaiting := Some(Style))]
      ensures outcome == Replied <==> userId in old(userStates) && old(userStates)[userId].awaiting.Some?
      ensures outcome == Replied ==> !ReadyToGenerate(Lookup(userId))
    {
      var awaiting := if userId in userStates then userStates[userId].awaiting else None;
      if awaiting.None? {
        return Silent;
      }
      var key := RequestKey(awaiting.value);
      assert RequestKey(Style) == "style_request" && RequestKey(Generate) == "generate_request";
      userStates := userStates[userId := userStates[userId].Put(key, text)];
      var next := if awaiting.value == Positive then Negative else Style;
      userStates := userStates[userId := userStates[userId].(awaiting := Some(next))];
      outcome := Replied;
    }

    /** The linear dialogue `/start`, `/positive`, text, then text or
        `/skip_negative`, then a catalog style: the record is ready for
        `/generate` and holds exactly what was entered; other users are untouched. */
    method LinearDialogue(userId: UserId, positive: string, negative: Option<string>, style: string)
      requires Valid()
      requires positive != "" && style in STYLE_CATALOG
      modifies this
      ensures Valid()
      ensures userId in userStates && ReadyToGenerate(Lookup(userId))
      ensures userStates[userId] == Session(Some(positive), negative, style, Some(Generate), map[])
      ensures userStates - {userId} == old(userStates) - {userId}
    {
      var outcome := StartCommand(userId);
      outcome := PositiveRequestCommand(userId);
      outcome := SetRequest(userId, positive);
      if negative.Some? {
        outcome := SetRequest(userId, negative.value);
      } else {
        outcome := SkipNegativeCommand(userId);
      }
      outcome := ProcessStyleSelection(userId, style);
    }

    /** Free text after the style is chosen leaves the record no longer ready:
        it is stored as "generate_request" and the cursor returns to "style". */
    method TextAfterStyle(userId: UserId, text: string)
      requires Valid()
      requires ReadyToGenerate(Lookup(userId))
      modifies this
      ensures Valid()
      ensures userId in userStates && !ReadyToGenerate(Lookup(userId))
      ensures userStates[userId].awaiting == Some(Style)
      ensures userStates[userId].extra == old(userStates[userId].extra)["generate_request" := text]
    {
      var outcome := SetRequest(userId, text);
    }
  }
}
