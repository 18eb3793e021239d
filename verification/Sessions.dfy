/** `auth/session.rs`: pending login states and cookie sessions, in memory. Random tokens
    are parameters. */
module Sessions {
  import opened Wrappers

  const LOGIN_SECS: int := 600
  const COOKIE_SECS: int := 86_400

  datatype Login = Login(nonce: string, expires: int)

  datatype Cookie = Cookie(user: string, expires: int)

  /** The nonce of a state that is known and not yet expired. */
  function Taken(pending: map<string, Login>, state: string, now: int): (r: Option<string>) {
    if state in pending && now < pending[state].expires then Some(pending[state].nonce) else None
  }

  function UserFor(cookies: map<string, Cookie>, sid: string, now: int): (r: Option<string>) {
    if sid in cookies && now < cookies[sid].expires then Some(cookies[sid].user) else None
  }

  class Sessions {
    var pending: map<string, Login>
    var cookies: map<string, Cookie>

    constructor ()
      ensures pending == map[] && cookies == map[]
    {
      pending, cookies := map[], map[];
    }

    /** The state yields its nonce for 600 seconds; the other states are as before. */
    method Begin(state: string, nonce: string, now: int)
      modifies this`pending
      ensures pending == old(pending)[state := Login(nonce, now + LOGIN_SECS)]
      ensures forall t :: Taken(pending, state, t) == if t < now + 600 then Some(nonce) else None
      ensures forall s, t :: s != state ==> Taken(pending, s, t) == Taken(old(pending), s, t)
    {
      pending := pending[state := Login(nonce, now + LOGIN_SECS)];
    }

    /** Whatever the outcome, the state is used up: taking it again yields nothing. */
    method TakePending(state: string, now: int) returns (nonce: Option<string>)
      modifies this`pending
      ensures nonce == Taken(old(pending), state, now)
      ensures pending == old(pending) - {state}
      ensures forall later :: Taken(pending, state, later).None?
    {
      if state !in pending {
        assert pending - {state} == pending;
        return None;
      }
      var login := pending[state];
      pending := pending - {state};
      nonce := if now < login.expires then Some(login.nonce) else None;
    }

    method CreateCookie(sid: string, user: string, now: int)
      modifies this`cookies
      ensures cookies == old(cookies)[sid := Cookie(user, now + COOKIE_SECS)]
      ensures forall t :: UserFor(cookies, sid, t) == if t < now + COOKIE_SECS then Some(user) else None
    {
      cookies := cookies[sid := Cookie(user, now + COOKIE_SECS)];
    }
  }
}
