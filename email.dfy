/**
 * Email verification codes: a table from address to the code sent, its
 * expiry and the number of attempts made against it. A code expires ten
 * minutes after it is issued, and an entry that has seen three attempts is
 * deleted on the next one.
 *
 * The clock is a parameter (`now`, in microseconds, the resolution of the
 * timestamps the service compares); the random code and the outcome of the
 * mail provider's call are parameters too.
 */
module Email {
  import opened Wrappers
  import opened Text

  type Address = string

  /** One stored code: what was sent, when it stops being valid, how often it was tried. */
  datatype Entry = Entry(code: string, expiresAt: int, attempts: nat)

  /** Ten minutes, in microseconds. */
  const Ttl: int := 10 * 60 * 1_000_000

  /** At most this many attempts are compared against a code. */
  const MaxAttempts: nat := 3

  /** The code used in the testing environment. */
  const TestCode := "12345"

  /** A five-digit code, as the random generator produces. */
  predicate IsCode(s: string) {
    |s| == 5 && AllDigits(s)
  }

  datatype SendError = SendFailed(reason: string)

  /** The table after issuing `code` to `address` at `now`: a fresh entry replaces any old one. */
  function Issue(codes: map<Address, Entry>, address: Address, code: string, now: int): (r: map<Address, Entry>)
    ensures address in r && r[address] == Entry(code, now + Ttl, 0)
    ensures r.Keys == codes.Keys + {address}
    ensures forall a <- codes | a != address :: r[a] == codes[a]
  {
    codes[address := Entry(code, now + Ttl, 0)]
  }

  /**
   * `verify_code`: whether `code` is accepted for `address` at `now`, and the
   * table afterwards. Unknown addresses are refused; expired entries and
   * entries already tried three times are deleted and refused; otherwise the
   * attempt is counted and a matching code is accepted and deleted.
   */
  function Verify(codes: map<Address, Entry>, address: Address, code: string, now: int): (r: (bool, map<Address, Entry>))
    ensures address !in codes ==> r == (false, codes)
    ensures r.0 <==> address in codes && now <= codes[address].expiresAt
                     && codes[address].attempts < MaxAttempts && codes[address].code == code
    ensures r.0 ==> address !in r.1
    ensures address in codes && (now > codes[address].expiresAt || codes[address].attempts >= MaxAttempts) ==> address !in r.1
    ensures address in codes && now <= codes[address].expiresAt && codes[address].attempts < MaxAttempts && codes[address].code != code ==> address in r.1
    ensures address in r.1 ==> r.1[address] == codes[address].(attempts := codes[address].attempts + 1)
    ensures r.1.Keys <= codes.Keys
    ensures forall a <- codes | a != address :: a in r.1 && r.1[a] == codes[a]
  {
    if address !in codes then (false, codes)
    else
      var stored := codes[address];
      if now > stored.expiresAt then (false, codes - {address})
      else if stored.attempts >= MaxAttempts then (false, codes - {address})
      else
        var counted := stored.(attempts := stored.attempts + 1);
        if counted.code == code then (true, codes - {address})
        else (false, codes[address := counted])
  }

  /** `cleanup_expired_codes`: the entries whose expiry is not before `now`. */
  function Unexpired(codes: map<Address, Entry>, now: int): (r: map<Address, Entry>)
    ensures forall a :: a in r <==> a in codes && now <= codes[a].expiresAt
    ensures forall a <- r :: r[a] == codes[a]
  {
    map a | a in codes && now <= codes[a].expiresAt :: codes[a]
  }

  /** No entry has been tried more than three times. */
  predicate AttemptsBounded(codes: map<Address, Entry>) {
    forall a <- codes :: codes[a].attempts <= MaxAttempts
  }

  /** Every operation keeps the attempt counts bounded. */
  lemma {:induction false} AttemptsStayBounded(codes: map<Address, Entry>, address: Address, code: string, now: int)
    requires AttemptsBounded(codes)
    ensures AttemptsBounded(Issue(codes, address, code, now))
    ensures AttemptsBounded(Verify(codes, address, code, now).1)
    ensures AttemptsBounded(Unexpired(codes, now))
  {
    var r := Verify(codes, address, code, now).1;
    forall a <- r
      ensures r[a].attempts <= MaxAttempts
    {
      if a == address {
        assert codes[address].attempts < MaxAttempts;
      }
    }
  }

  /**
   * Three wrong guesses lock a fresh code out: the fourth attempt is refused
   * even with the right code, and the entry is gone.
   */
  lemma {:induction false} LockoutAfterThreeAttempts(codes: map<Address, Entry>, address: Address, code: string,
                                                     wrong1: string, wrong2: string, wrong3: string, issuedAt: int, now: int)
    requires wrong1 != code && wrong2 != code && wrong3 != code
    requires issuedAt <= now <= issuedAt + Ttl
    ensures var c0 := Issue(codes, address, code, issuedAt);
            var v1 := Verify(c0, address, wrong1, now);
            var v2 := Verify(v1.1, address, wrong2, now);
            var v3 := Verify(v2.1, address, wrong3, now);
            var v4 := Verify(v3.1, address, code, now);
            !v1.0 && !v2.0 && !v3.0 && !v4.0 && address !in v4.1
  {
    var c0 := Issue(codes, address, code, issuedAt);
    var v1 := Verify(c0, address, wrong1, now);
    assert v1.1[address].attempts == 1;
    var v2 := Verify(v1.1, address, wrong2, now);
    assert v2.1[address].attempts == 2;
    var v3 := Verify(v2.1, address, wrong3, now);
    assert v3.1[address].attempts == 3;
  }

  /**
   * Three tries are granted: after one or two wrong guesses the code that
   * was issued is still accepted before it expires.
   */
  lemma {:induction false} ThreeTriesGranted(codes: map<Address, Entry>, address: Address, code: string,
                                             wrong1: string, wrong2: string, issuedAt: int, now: int)
    requires wrong1 != code && wrong2 != code
    requires issuedAt <= now <= issuedAt + Ttl
    ensures var c0 := Issue(codes, address, code, issuedAt);
            var v1 := Verify(c0, address, wrong1, now);
            var v2 := Verify(v1.1, address, wrong2, now);
            && Verify(c0, address, code, now).0
            && !v1.0 && Verify(v1.1, address, code, now).0
            && !v2.0 && Verify(v2.1, address, code, now).0
  {
    var c0 := Issue(codes, address, code, issuedAt);
    var v1 := Verify(c0, address, wrong1, now);
    assert v1.1[address] == Entry(code, issuedAt + Ttl, 1);
    var v2 := Verify(v1.1, address, wrong2, now);
    assert v2.1[address] == Entry(code, issuedAt + Ttl, 2);
  }

  /** A code is accepted at most once: the second use of the right code is refused. */
  lemma {:induction false} CodeIsSingleUse(codes: map<Address, Entry>, address: Address, code: string, issuedAt: int, now: int, later: int)
    requires issuedAt <= now <= issuedAt + Ttl
    ensures var c0 := Issue(codes, address, code, issuedAt);
            var v1 := Verify(c0, address, code, now);
            v1.0 && !Verify(v1.1, address, code, later).0
  {
  }

  /** Issuing again resets the attempts, so a locked-out address can verify with the new code. */
  lemma {:induction false} ReissueResetsAttempts(codes: map<Address, Entry>, address: Address, code: string, issuedAt: int, now: int)
    requires issuedAt <= now <= issuedAt + Ttl
    requires address in codes && codes[address].attempts >= MaxAttempts
    ensures !Verify(codes, address, codes[address].code, now).0
    ensures Verify(Issue(codes, address, code, issuedAt), address, code, now).0
  {
  }

  /** A code refused for being expired stays refused: the entry is deleted. */
  lemma {:induction false} ExpiredStaysRefused(codes: map<Address, Entry>, address: Address, code: string, now: int, later: int)
    requires address in codes && now > codes[address].expiresAt
    ensures !Verify(codes, address, code, now).0
    ensures !Verify(Verify(codes, address, code, now).1, address, code, later).0
  {
  }

  /** The in-memory code table. */
  class CodeStore {
    var codes: map<Address, Entry>

    constructor ()
      ensures codes == map[]
    {
      codes := map[];
    }

    /**
     * `send_verification_email`: stores a fresh entry for `address` (the fixed
     * test code when `testing`, else `randomCode`), then hands the mail to the
     * provider unless testing. A provider failure is reported after the entry
     * is stored.
     */
    method SendVerificationEmail(address: Address, testing: bool, randomCode: string, now: int, providerFails: Option<string>)
      returns (r: Result<string, SendError>)
      requires IsCode(randomCode)
      modifies this
      ensures var code := if testing then TestCode else randomCode;
              codes == Issue(old(codes), address, code, now)
              && (testing || providerFails.None? ==> r == Success(code))
              && (!testing && providerFails.Some? ==> r == Failure(SendFailed(providerFails.value)))
    {
      var code := if testing then TestCode else randomCode;
      codes := codes[address := Entry(code, now + Ttl, 0)];
      if testing {
        return Success(code);
      }
      if providerFails.Some? {
        return Failure(SendFailed(providerFails.value));
      }
      return Success(code);
    }

    /** `verify_code`. */
    method VerifyCode(address: Address, code: string, now: int) returns (ok: bool)
      modifies this
      ensures (ok, codes) == Verify(old(codes), address, code, now)
    {
      if address !in codes {
        return false;
      }
      var stored := codes[address];
      if now > stored.expiresAt {
        codes := codes - {address};
        return false;
      }
      if stored.attempts >= MaxAttempts {
        codes := codes - {address};
        return false;
      }
      stored := stored.(attempts := stored.attempts + 1);
      codes := codes[address := stored];
      if stored.code == code {
        codes := codes - {address};
        assert codes == old(codes) - {address};
        return true;
      }
      return false;
    }

    /** `cleanup_expired_codes`: collects the expired addresses, then deletes each. */
    method CleanupExpiredCodes(now: int)
      modifies this
      ensures codes == Unexpired(old(codes), now)
    {
      var expired := set a | a in codes && now > codes[a].expiresAt;
      ghost var done: set<Address> := {};
      while expired != {}
        invariant expired !! done
        invariant expired + done == set a | a in old(codes) && now > old(codes)[a].expiresAt
        invariant codes == old(codes) - done
        decreases expired
      {
        var a :| a in expired;
        codes := codes - {a};
        expired := expired - {a};
        done := done + {a};
      }
      assert codes == Unexpired(old(codes), now);
    }
  }
}
