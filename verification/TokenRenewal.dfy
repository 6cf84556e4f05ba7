/** When the token of an AccessRequest is renewed. Times are in nanoseconds; the secret keeps them in
    full seconds. */
module TokenRenewal {
  import opened Common

  const Second: nat := 1_000_000_000

  datatype Token = Token(created: int, expires: int)

  /** A timestamp as the secret holds it. */
  datatype Stamp = Missing | Garbled | Seconds(value: int)

  datatype Secret = Secret(created: Stamp, expires: Stamp)

  /** The part of a duration after which a token is renewed: four fifths, rounded towards zero. */
  function FourFifths(d: int): int {
    if d >= 0 then 4 * d / 5 else -(4 * -d / 5)
  }

  function RenewalTime(created: int, expires: int): int {
    created + FourFifths(expires - created)
  }

  /** The secret that is written for a token. */
  function SecretOf(t: Token): Secret {
    Secret(Seconds(t.created / Second), Seconds(t.expires / Second))
  }

  /** The start of the second that a time is in. */
  function FullSecond(time: int): (r: int)
    ensures r <= time < r + Second
  {
    time / Second * Second
  }

  /** What the check of an existing secret comes to. */
  datatype Verdict = Keep(requeueAt: int) | Renew | Unreadable

  function Judge(s: Secret, now: int): Verdict {
    if s.created == Missing || s.expires == Missing then Renew
    else if s.created == Garbled || s.expires == Garbled then Unreadable
    else
      var renewal := RenewalTime(s.created.value * Second, s.expires.value * Second);
      if now < renewal then Keep(renewal) else Renew
  }

  /** Truncation to full seconds moves the renewal to an earlier time, by less than a second, that still
      lies between the creation and the expiry which the secret states. */
  lemma RenewalFromSecret(t: Token)
    requires t.created <= t.expires
    ensures var exact := RenewalTime(t.created, t.expires);
            var stored := RenewalTime(FullSecond(t.created), FullSecond(t.expires));
            && exact - Second < stored <= exact
            && FullSecond(t.created) <= stored <= FullSecond(t.expires)
            && t.created <= exact <= t.expires
  {
    var c, e := FullSecond(t.created), FullSecond(t.expires);
    assert c <= e by { FullSecondIsMonotone(t.created, t.expires); }
    Weighted(t.created, t.expires);
    Weighted(c, e);
  }

  lemma FullSecondIsMonotone(a: int, b: int)
    requires a <= b
    ensures FullSecond(a) <= FullSecond(b)
  {}

  /** Four fifths of the way from `c` to `e`. */
  lemma Weighted(c: int, e: int)
    requires c <= e
    ensures RenewalTime(c, e) == (c + 4 * e) / 5
    ensures c <= RenewalTime(c, e) <= e
  {
    assert (c + 4 * e) / 5 == c + 4 * (e - c) / 5 by {
      assert c + 4 * e == 5 * c + 4 * (e - c);
    }
  }

  // ---------------------------------------------------------------------------------------------
  // Runs

  /** The token of a request, and when the next pass is due. */
  datatype Held = Held(token: Token, due: int)

  /** A pass at some time, and the token it is given if it renews. */
  datatype Visit = Visit(now: int, issued: Token)

  function Renewing(h: Held, p: Visit): bool {
    Judge(SecretOf(h.token), p.now).Renew?
  }

  function After(h: Held, p: Visit): Held {
    match Judge(SecretOf(h.token), p.now)
    case Keep(requeueAt) => Held(h.token, requeueAt)
    case Renew => Held(p.issued, RenewalTime(p.issued.created, p.issued.expires))
    case Unreadable => h
  }

  /** The next pass is due at the renewal time, be it computed from the token or from the secret. */
  predicate Due(h: Held) {
    && h.token.created <= h.token.expires
    && (h.due == RenewalTime(h.token.created, h.token.expires)
        || h.due == RenewalTime(FullSecond(h.token.created), FullSecond(h.token.expires)))
  }

  lemma AfterIsDue(h: Held, p: Visit)
    requires Due(h) && p.issued.created <= p.issued.expires
    ensures Due(After(h, p))
  {}

  /** A pass that waits until it is due renews the token. */
  lemma HonouredRequeueRenews(h: Held, p: Visit)
    requires Due(h) && p.now >= h.due
    ensures Renewing(h, p) && After(h, p).token == p.issued
  {
    RenewalFromSecret(h.token);
  }

  /** The pass comes late by no more than a fifth of the validity, less one second. It may come early. */
  predicate InTime(h: Held, p: Visit) {
    5 * (p.now - h.due) <= h.token.expires - h.token.created - 5 * Second
  }

  ghost predicate AllInTime(h: Held, run: seq<Visit>)
    decreases |run|
  {
    run == [] || (InTime(h, run[0]) && run[0].issued.created <= run[0].issued.expires
                  && AllInTime(After(h, run[0]), run[1..]))
  }

  /** Up to each pass of the run, the expiry that the secret states is in the future. */
  ghost predicate LiveThroughout(h: Held, run: seq<Visit>)
    decreases |run|
  {
    run == [] || (run[0].now < FullSecond(h.token.expires) && LiveThroughout(After(h, run[0]), run[1..]))
  }

  lemma InTimeIsLive(h: Held, p: Visit)
    requires Due(h) && InTime(h, p)
    ensures p.now < FullSecond(h.token.expires) <= h.token.expires
  {
    var c, e := h.token.created, h.token.expires;
    RenewalFromSecret(h.token);
    Weighted(c, e);
    assert 5 * p.now <= 5 * h.due + (e - c) - 5 * Second;
    assert 5 * h.due <= c + 4 * e;
  }

  /** As long as no pass is later than that, the secret holds a live token at all times. */
  lemma {:induction false} TokenStaysLive(h: Held, run: seq<Visit>)
    requires Due(h) && AllInTime(h, run)
    ensures LiveThroughout(h, run)
    decreases |run|
  {
    if run != [] {
      InTimeIsLive(h, run[0]);
      AfterIsDue(h, run[0]);
      TokenStaysLive(After(h, run[0]), run[1..]);
    }
  }

  /** A pass that is later by a fifth of the validity can find the token expired. */
  lemma BoundIsNearlyTight()
    ensures exists h: Held, p: Visit ::
              Due(h) && 5 * (p.now - h.due) == h.token.expires - h.token.created && p.now >= h.token.expires
  {
    var h := Held(Token(0, 10 * Second), 8 * Second);
    var p := Visit(10 * Second, Token(0, 0));
    assert Due(h) && 5 * (p.now - h.due) == h.token.expires - h.token.created && p.now >= h.token.expires;
  }
}
