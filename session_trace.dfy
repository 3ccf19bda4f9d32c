/**
 * The session as a state machine over the whole client: the store and the
 * context's user, stepped by `login`, `logout`, `switchRole`, outgoing
 * requests and the response interceptor's error path. Each step applies the
 * same function that the corresponding method's postcondition uses.
 */
module SessionTrace {
  import opened Wrappers
  import opened AuthApi
  import opened Http
  import opened AuthProvider

  datatype Session = Session(items: map<string, string>, user: Option<User>)

  datatype Event =
    | SignIn(role: Option<Role>, reply: SignInReply)   // `login` settles with `reply`
    | SignOut                                         // `logout`
    | Demo(demo: Role)                                // `switchRole`
    | Send(headers: map<string, string>)              // a request passes the request interceptor
    | ErrorResponse(error: HttpError)                 // the response interceptor sees an error

  /** Only an accepted sign-in writes the session keys. */
  predicate SignsIn(e: Event) {
    e.SignIn? && Accepted(e.reply)
  }

  function Step(s: Session, e: Event, serialize: Option<Profile> -> string): Session {
    match e
    case SignIn(role, reply) =>
      Session(SessionAfterLogin(s.items, reply, serialize),
              if Accepted(reply) then Some(SignedInUser(reply.body.value, role)) else None)
    case SignOut => Session(Cleared(s.items), None)
    case Demo(r) => Session(s.items, Some(DemoUser(r)))
    case Send(_) => s
    case ErrorResponse(error) => Session(AfterError(s.items, error), s.user)
  }

  function Replay(s: Session, events: seq<Event>, serialize: Option<Profile> -> string): Session
    decreases |events|
  {
    if events == [] then s else Replay(Step(s, events[0], serialize), events[1..], serialize)
  }

  /** While no sign-in is accepted, a store without an access token stays without one. */
  lemma {:induction false} StaysSignedOut(s: Session, events: seq<Event>, serialize: Option<Profile> -> string)
    requires AccessTokenKey !in s.items
    requires forall k :: 0 <= k < |events| ==> !SignsIn(events[k])
    ensures AccessTokenKey !in Replay(s, events, serialize).items
    decreases |events|
  {
    if events != [] {
      StaysSignedOut(Step(s, events[0], serialize), events[1..], serialize);
    }
  }

  /**
   * After a 401, no later request carries a bearer credential it did not
   * already have, until a sign-in is accepted again.
   */
  lemma NoBearerAfterUnauthorized(s: Session, error: HttpError, events: seq<Event>, serialize: Option<Profile> -> string)
    requires error.status == Some(401)
    requires forall k :: 0 <= k < |events| ==> !SignsIn(events[k])
    ensures forall k :: 0 <= k < |events| && events[k].Send? ==>
      WithBearer(events[k].headers, Replay(s, [ErrorResponse(error)] + events[..k], serialize).items)
        == events[k].headers
  {
    forall k | 0 <= k < |events| && events[k].Send?
      ensures WithBearer(events[k].headers, Replay(s, [ErrorResponse(error)] + events[..k], serialize).items)
        == events[k].headers
    {
      var after := Step(s, ErrorResponse(error), serialize);
      assert ([ErrorResponse(error)] + events[..k])[1..] == events[..k];
      StaysSignedOut(after, events[..k], serialize);
    }
  }

  /** A stored access token always comes with a signed-in user in the context. */
  ghost predicate Consistent(s: Session) {
    AccessTokenKey in s.items ==> s.user.Some?
  }

  /** Every step keeps the store and the context consistent, starting from a consistent state. */
  lemma {:induction false} ReplayKeepsConsistent(s: Session, events: seq<Event>, serialize: Option<Profile> -> string)
    requires Consistent(s)
    ensures Consistent(Replay(s, events, serialize))
    decreases |events|
  {
    if events != [] {
      ReplayKeepsConsistent(Step(s, events[0], serialize), events[1..], serialize);
    }
  }
}
