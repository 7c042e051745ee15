/**
 The in-memory challenge store of the login component: a map from challenge
 id to the expected answer, the issue time and the number of failed attempts,
 the expiry sweep `Clean`, and the local digit verifier, which takes a token
 `"<answer>,<id>"` and consumes the challenge on a correct answer.

 Times are integers counting nanoseconds, the unit of Go's `time.Duration`.
 */
module Captcha {
  import opened Strings
  import opened Digits

  const Second: int := 1_000_000_000
  const Minute: int := 60 * Second
  /** How long an issued challenge stays valid before a sweep may drop it. */
  const CaptchaDisableDuration: int := 2 * Minute

  /** One pending challenge: when it was issued, the answer expected, and how
      many wrong answers it has received. */
  datatype Item = Item(time: int, data: string, num: int)

  type Store = map<string, Item>

  /** `Time.Add(CaptchaDisableDuration).Before(now)`: strictly past its
      lifetime. */
  predicate Expired(item: Item, now: int) {
    item.time + CaptchaDisableDuration < now
  }

  /** The store after a sweep at time `now`. */
  function Swept(m: Store, now: int): (r: Store)
    ensures forall k :: k in r ==> k in m && r[k] == m[k] && !Expired(m[k], now)
    ensures forall k :: k in m && !Expired(m[k], now) ==> k in r
  {
    map k | k in m && !Expired(m[k], now) :: m[k]
  }

  /** The outcome of checking a token: whether it was accepted, and the store
      afterwards. */
  datatype Verdict = Verdict(accepted: bool, store: Store)

  /** What `DigitsCaptcha.Validate` decides for `token` against the store `m`. */
  function Check(m: Store, token: string): (v: Verdict)
    ensures v.store.Keys <= m.Keys
    ensures v.accepted ==> |v.store| == |m| - 1
    ensures !v.accepted ==> v.store.Keys == m.Keys
    ensures forall k :: k in v.store ==> v.store[k].time == m[k].time && v.store[k].data == m[k].data
  {
    var parts := Split(token, ',');
    if |parts| < 2 then Verdict(false, m)
    else
      var id := parts[1];
      if id !in m then Verdict(false, m)
      else if m[id].data == parts[0] then Verdict(true, m - {id})
      else Verdict(false, m[id := m[id].(num := m[id].num + 1)])
  }

  /** The token a client submits: its answer and the challenge id, joined by a
      comma. */
  function Token(answer: string, id: string): string {
    answer + [','] + id
  }

  /** The challenge store: the process-wide `captchaData` map. */
  class CaptchaData {
    var items: Store

    constructor ()
      ensures items == map[]
    {
      items := map[];
    }

    /** Deletes, one key at a time, every entry whose lifetime has passed. */
    method Clean(now: int)
      modifies this
      ensures items == Swept(old(items), now)
    {
      ghost var start := items;
      var pending := items.Keys;
      while pending != {}
        invariant pending <= start.Keys
        invariant forall k :: k in items <==> k in start && (k in pending || !Expired(start[k], now))
        invariant forall k :: k in items ==> items[k] == start[k]
        decreases pending
      {
        var key :| key in pending;
        if Expired(items[key], now) {
          items := items - {key};
        }
        pending := pending - {key};
      }
      assert items.Keys == Swept(start, now).Keys;
    }
  }

  /** The local verification driver; it works on the shared store. */
  class DigitsCaptcha {
    const data: CaptchaData

    constructor (data: CaptchaData)
      ensures this.data == data
    {
      this.data := data;
    }

    method Validate(token: string) returns (ok: bool)
      modifies data
      ensures ok == Check(old(data.items), token).accepted
      ensures data.items == Check(old(data.items), token).store
    {
      var tokenArr := Split(token, ',');
      if |tokenArr| < 2 {
        return false;
      }
      if tokenArr[1] in data.items {
        var v := data.items[tokenArr[1]];
        if v.data == tokenArr[0] {
          data.items := data.items - {tokenArr[1]};
          return true;
        } else {
          v := v.(num := v.num + 1);
          data.items := data.items[tokenArr[1] := v];
          return false;
        }
      }
      return false;
    }
  }

  // ---------------------------------------------------------------------
  // The sweep

  /** A sweep keeps exactly the entries still within their lifetime, an entry
      exactly at the boundary included, with their values unchanged. */
  lemma SweptKeepsExactly(m: Store, now: int)
    ensures forall k :: k in Swept(m, now) <==> k in m && now <= m[k].time + CaptchaDisableDuration
    ensures forall k :: k in Swept(m, now) ==> Swept(m, now)[k] == m[k]
  {
  }

  /** Sweeping again at the same or a later time subsumes the earlier sweep. */
  lemma SweptLater(m: Store, t1: int, t2: int)
    requires t1 <= t2
    ensures Swept(Swept(m, t1), t2) == Swept(m, t2)
  {
  }

  /** A token naming a swept challenge is refused and leaves the store alone. */
  lemma SweptChallengeRefused(m: Store, now: int, answer: string, id: string)
    requires ',' !in answer && ',' !in id
    requires id in m && Expired(m[id], now)
    ensures Check(Swept(m, now), Token(answer, id)) == Verdict(false, Swept(m, now))
  {
    TokenParts(answer, id);
  }

  // ---------------------------------------------------------------------
  // Validation

  /** A token splits into its answer and its id; anything after a further
      comma becomes further pieces. */
  lemma TokenParts(answer: string, id: string)
    requires ',' !in answer && ',' !in id
    ensures Split(Token(answer, id), ',') == [answer, id]
    ensures forall extra :: Split(Token(answer, id) + [','] + extra, ',') == [answer, id] + Split(extra, ',')
  {
    SplitAfterPiece(answer, ',', id);
    SplitSeparatorFree(id, ',');
    forall extra ensures Split(Token(answer, id) + [','] + extra, ',') == [answer, id] + Split(extra, ',') {
      assert Token(answer, id) + [','] + extra == answer + [','] + (id + [','] + extra);
      SplitAfterPiece(answer, ',', id + [','] + extra);
      SplitAfterPiece(id, ',', extra);
    }
  }

  /** A token without a comma is refused and the store is left unchanged. */
  lemma NoCommaRefused(m: Store, token: string)
    requires ',' !in token
    ensures Check(m, token) == Verdict(false, m)
  {
    SplitHasTwoPieces(token, ',');
  }

  /** A token whose id is not in the store (never issued, consumed or swept)
      is refused and the store is left unchanged. */
  lemma UnknownIdRefused(m: Store, answer: string, id: string)
    requires ',' !in answer && ',' !in id
    requires id !in m
    ensures Check(m, Token(answer, id)) == Verdict(false, m)
  {
    TokenParts(answer, id);
  }

  /** A token is accepted exactly when its id is pending and its answer is the
      stored one; then that challenge, and nothing else, is removed. */
  lemma MatchConsumes(m: Store, answer: string, id: string)
    requires ',' !in answer && ',' !in id
    ensures Check(m, Token(answer, id)).accepted <==> id in m && m[id].data == answer
    ensures Check(m, Token(answer, id)).accepted ==> Check(m, Token(answer, id)).store == m - {id}
  {
    TokenParts(answer, id);
  }

  /** A wrong answer to a pending challenge is refused; the challenge stays,
      its attempt count rises by one, its answer and time stay, and every other
      entry is untouched. */
  lemma MismatchCounts(m: Store, answer: string, id: string)
    requires ',' !in answer && ',' !in id
    requires id in m && m[id].data != answer
    ensures !Check(m, Token(answer, id)).accepted
    ensures var after := Check(m, Token(answer, id)).store;
      && after.Keys == m.Keys
      && after[id] == Item(m[id].time, m[id].data, m[id].num + 1)
      && forall k :: k in m && k != id ==> after[k] == m[k]
  {
    TokenParts(answer, id);
  }

  /** Pieces after the second are ignored. */
  lemma ExtraPartsIgnored(m: Store, answer: string, id: string, extra: string)
    requires ',' !in answer && ',' !in id
    ensures Check(m, Token(answer, id) + [','] + extra) == Check(m, Token(answer, id))
  {
    TokenParts(answer, id);
    assert Split(Token(answer, id) + [','] + extra, ',')[..2] == [answer, id];
  }

  /** Single use: once a token has been accepted, the same token is refused. */
  lemma SingleUse(m: Store, token: string)
    requires Check(m, token).accepted
    ensures Check(Check(m, token).store, token) == Verdict(false, Check(m, token).store)
  {
  }

  /** Validation never adds an entry, never changes an entry's answer or
      issue time, and never lowers an attempt count. */
  lemma CheckMonotone(m: Store, token: string)
    ensures var after := Check(m, token).store;
      && after.Keys <= m.Keys
      && forall k :: k in after ==> after[k].time == m[k].time && after[k].data == m[k].data && after[k].num >= m[k].num
  {
  }

  // ---------------------------------------------------------------------
  // Issuance followed by validation

  /** A freshly issued challenge (attempt count 0) is accepted with the answer
      built from its digits; afterwards the store is the one before issuance
      without that id. */
  lemma IssueThenAnswer(m: Store, id: string, digits: seq<byte>, now: int)
    requires ',' !in id
    ensures var issued := m[id := Item(now, DigitsToString(digits), 0)];
      Check(issued, Token(DigitsToString(digits), id)) == Verdict(true, m - {id})
  {
    var answer := DigitsToString(digits);
    assert ',' !in answer;
    TokenParts(answer, id);
    var issued := m[id := Item(now, answer, 0)];
    assert issued - {id} == m - {id};
  }

  /** A wrong answer to a freshly issued challenge is refused and leaves it
      pending with one recorded attempt. */
  lemma IssueThenWrongAnswer(m: Store, id: string, digits: seq<byte>, now: int, answer: string)
    requires ',' !in id && ',' !in answer
    requires answer != DigitsToString(digits)
    ensures var issued := m[id := Item(now, DigitsToString(digits), 0)];
      Check(issued, Token(answer, id)) == Verdict(false, m[id := Item(now, DigitsToString(digits), 1)])
  {
    TokenParts(answer, id);
    var issued := m[id := Item(now, DigitsToString(digits), 0)];
    assert issued[id := issued[id].(num := 1)] == m[id := Item(now, DigitsToString(digits), 1)];
  }
}
