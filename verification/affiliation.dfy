/**
 * server/routes/affiliation.ts: joining a company or school group by e-mail.
 * The email_verifications table is the `records` field of a store object; the
 * send-code and verify handlers are methods on it. Clock readings, the
 * generated code, the groups and user rows read from the database, and the
 * result of sending the mail are parameters. Times are milliseconds.
 */
module Affiliation {
  import opened Wrappers
  import opened Text

  const VerificationExpiryMinutes := 5
  const MaxVerificationAttempts := 5
  const CooldownDays := 30
  const MaxEmailSendsPerHour := 3

  const MinuteMs := 60 * 1000
  const HourMs := 60 * MinuteMs
  const DayMs := 24 * HourMs

  // ---------------------------------------------------------------- helpers

  /** extractDomain (lines 35-38): the lowercased text after the only '@', else "". */
  function ExtractDomain(email: string): (d: string)
    ensures CountChar(email, '@') != 1 ==> d == []
    ensures d != [] ==> '@' !in d && EndsWith(Lower(email), d)
  {
    var parts := Split(email, '@');
    if |parts| == 2 then
      assert email == parts[0] + "@" + parts[1];
      LowerAppend(parts[0] + "@", parts[1]);
      Lower(parts[1])
    else []
  }

  /** The domain of "local@domain" is the lowercased domain, when neither part holds an '@'. */
  lemma ExtractDomainOf(local: string, domain: string)
    requires '@' !in local && '@' !in domain
    ensures ExtractDomain(local + "@" + domain) == Lower(domain)
  {
    SplitJoin([local, domain], '@');
    assert Join([local, domain], "@") == local + "@" + domain;
  }

  /** isWithinCooldown (lines 25-30): true until 30 days after joining; false without a join date. */
  function IsWithinCooldown(joinedAt: Option<int>, now: int): bool
  {
    joinedAt.Some? && now < joinedAt.value + CooldownDays * DayMs
  }

  /** The cooldown covers exactly the 30 days that start at the join time. */
  lemma CooldownWindow(joinedAt: int, now: int)
    ensures joinedAt <= now < joinedAt + 30 * DayMs ==> IsWithinCooldown(Some(joinedAt), now)
    ensures now >= joinedAt + 30 * DayMs ==> !IsWithinCooldown(Some(joinedAt), now)
    ensures !IsWithinCooldown(None, now)
  {
  }

  // ---------------------------------------------------------------- rows

  datatype Group = Group(id: int, name: string, isActive: bool, allowedDomains: Option<seq<string>>)

  /** The user row: group_id (0 or null means none) and group_joined_at. */
  datatype User = User(groupId: Option<int>, groupJoinedAt: Option<int>)

  datatype Verification = Verification(
    id: int, userId: int, email: string, code: string,
    createdAt: int, expiresAt: int, attempts: int, isVerified: bool)

  datatype Membership = Membership(groupId: int, groupEmail: string, joinedAt: int)

  /** `g.allowed_domains?.some(d => domain === d.toLowerCase())`. */
  predicate Allows(g: Group, domain: string)
  {
    g.allowedDomains.Some? && exists k :: 0 <= k < |g.allowedDomains.value| && domain == Lower(g.allowedDomains.value[k])
  }

  /** The first active group that allows the domain. */
  function MatchGroup(groups: seq<Group>, domain: string): (r: Option<Group>)
    ensures r.Some? ==> r.value in groups && r.value.isActive && Allows(r.value, domain)
    ensures r.None? <==> forall i :: 0 <= i < |groups| ==> !(groups[i].isActive && Allows(groups[i], domain))
  {
    if groups == [] then None
    else if groups[0].isActive && Allows(groups[0], domain) then Some(groups[0])
    else
      var r := MatchGroup(groups[1..], domain);
      assert forall i :: 1 <= i < |groups| ==> groups[1..][i - 1] == groups[i];
      r
  }

  /** The verifications the user created in the hour before now. */
  function RecentCount(records: seq<Verification>, userId: int, now: int): (n: nat)
    ensures n <= |records|
  {
    if records == [] then 0
    else RecentCount(records[..|records| - 1], userId, now)
         + (if records[|records| - 1].userId == userId && records[|records| - 1].createdAt > now - HourMs then 1 else 0)
  }

  /** The table without the user's unverified records. */
  function DropPending(records: seq<Verification>, userId: int): (r: seq<Verification>)
    ensures |r| <= |records|
    ensures forall i :: 0 <= i < |r| ==> r[i] in records && (r[i].userId != userId || r[i].isVerified)
    ensures forall v :: v in records && (v.userId != userId || v.isVerified) ==> v in r
  {
    if records == [] then []
    else
      var rest := DropPending(records[..|records| - 1], userId);
      var last := records[|records| - 1];
      assert forall v :: v in records ==> v in records[..|records| - 1] || v == last;
      if last.userId == userId && !last.isVerified then rest else rest + [last]
  }

  /** A user has at most one unverified record. */
  predicate AtMostOnePending(records: seq<Verification>)
  {
    forall i, j :: 0 <= i < j < |records| && records[i].userId == records[j].userId
                   ==> records[i].isVerified || records[j].isVerified
  }

  /** Attempts never exceed the limit. */
  predicate AttemptsBounded(records: seq<Verification>)
  {
    forall i :: 0 <= i < |records| ==> 0 <= records[i].attempts <= MaxVerificationAttempts
  }

  /** The index of the user's unverified record, if there is one. */
  function PendingIndex(records: seq<Verification>, userId: int): (r: Option<nat>)
    ensures r.Some? ==> r.value < |records| && records[r.value].userId == userId && !records[r.value].isVerified
    ensures r.None? ==> forall i :: 0 <= i < |records| ==> records[i].userId != userId || records[i].isVerified
  {
    if records == [] then None
    else
      var last := |records| - 1;
      if records[last].userId == userId && !records[last].isVerified then Some(last)
      else PendingIndex(records[..last], userId)
  }

  // ---------------------------------------------------------------- outcomes

  lemma {:induction false} DropPendingKeepsOne(records: seq<Verification>, userId: int)
    requires AtMostOnePending(records)
    ensures AtMostOnePending(DropPending(records, userId))
  {
    if records != [] {
      var init := records[..|records| - 1];
      var last := records[|records| - 1];
      var rest := DropPending(init, userId);
      DropPendingKeepsOne(init, userId);
      if !(last.userId == userId && !last.isVerified) {
        var r := rest + [last];
        forall i | 0 <= i < |rest| && rest[i].userId == last.userId
          ensures rest[i].isVerified || last.isVerified
        {
          assert rest[i] in init;
          var a :| 0 <= a < |init| && init[a] == rest[i];
          assert records[a] == rest[i];
        }
      }
    }
  }

  /** Replacing the user's pending records by one fresh record keeps the table's invariants. */
  lemma ReplacePendingValid(records: seq<Verification>, userId: int, v: Verification)
    requires AtMostOnePending(records) && AttemptsBounded(records)
    requires v.userId == userId && v.attempts == 0
    ensures AtMostOnePending(DropPending(records, userId) + [v])
    ensures AttemptsBounded(DropPending(records, userId) + [v])
  {
    var kept := DropPending(records, userId);
    var r := kept + [v];
    DropPendingKeepsOne(records, userId);
    forall i | 0 <= i < |kept|
      ensures kept[i].userId != userId || kept[i].isVerified
    {
    }
    forall i | 0 <= i < |r|
      ensures 0 <= r[i].attempts <= MaxVerificationAttempts
    {
      if i < |kept| {
        assert r[i] in records;
      }
    }
  }

  /** Marking the pending record verified, after counting the attempt, leaves the user none pending. */
  lemma MarkVerifiedValid(records: seq<Verification>, userId: int, i: nat)
    requires AtMostOnePending(records) && AttemptsBounded(records)
    requires PendingIndex(records, userId) == Some(i)
    requires records[i].attempts < MaxVerificationAttempts
    ensures var r := records[i := records[i].(attempts := records[i].attempts + 1, isVerified := true)];
            AtMostOnePending(r) && AttemptsBounded(r) && PendingIndex(r, userId).None?
  {
    var r := records[i := records[i].(attempts := records[i].attempts + 1, isVerified := true)];
    forall j | 0 <= j < |r|
      ensures r[j].userId != userId || r[j].isVerified
    {
      if j != i && r[j].userId == userId {
        assert records[j].userId == records[i].userId;
      }
    }
  }

  /** Counting one more attempt on the pending record keeps the table's invariants. */
  lemma CountAttemptValid(records: seq<Verification>, userId: int, i: nat)
    requires AtMostOnePending(records) && AttemptsBounded(records)
    requires PendingIndex(records, userId) == Some(i)
    requires records[i].attempts < MaxVerificationAttempts
    ensures var r := records[i := records[i].(attempts := records[i].attempts + 1)];
            AtMostOnePending(r) && AttemptsBounded(r)
  {
  }

  datatype SendError =
    | EmailRequired | InvalidEmail | DomainNotFound | UserNotFound
    | CooldownActive | EmailAlreadyUsed | RateLimited | EmailSendFailed

  datatype SendOutcome = CodeSent(groupName: string) | SendRejected(error: SendError)

  datatype VerifyError =
    | CodeRequired | NoPendingVerification | Expired | MaxAttempts | InvalidCode | GroupNotFound

  datatype VerifyOutcome = Joined(groupId: int) | VerifyRejected(error: VerifyError)

  /**
   * The checks of send-code before anything is written (lines 73-150), in
   * order; on success, the normalised address and the matched group.
   */
  function SendGate(email: Option<string>, groups: seq<Group>, user: Option<User>,
                    emailUsedByOther: bool, recent: nat, now: int): (r: Result<(string, Group), SendError>)
    ensures (email.None? || email.value == []) ==> r == Failure(EmailRequired)
    ensures r.Failure? && r.error == RateLimited ==> recent >= MaxEmailSendsPerHour
    ensures r.Success? ==> recent < MaxEmailSendsPerHour && !emailUsedByOther && user.Some?
    ensures r.Success? ==> r.value.0 == Trim(Lower(email.value)) && r.value.1.isActive
                           && Allows(r.value.1, ExtractDomain(r.value.0)) && ExtractDomain(r.value.0) != []
    ensures r.Success? ==> !(user.value.groupId.Some? && user.value.groupId.value != 0 && IsWithinCooldown(user.value.groupJoinedAt, now))
  {
    if email.None? || email.value == [] then Failure(EmailRequired)
    else
      var normalized := Trim(Lower(email.value));
      var domain := ExtractDomain(normalized);
      if domain == [] then Failure(InvalidEmail)
      else
        var matched := MatchGroup(groups, domain);
        if matched.None? then Failure(DomainNotFound)
        else if user.None? then Failure(UserNotFound)
        else if user.value.groupId.Some? && user.value.groupId.value != 0 && IsWithinCooldown(user.value.groupJoinedAt, now) then Failure(CooldownActive)
        else if emailUsedByOther then Failure(EmailAlreadyUsed)
        else if recent >= MaxEmailSendsPerHour then Failure(RateLimited)
        else Success((normalized, matched.value))
  }

  datatype Result<T, E> = Success(value: T) | Failure(error: E)

  // ---------------------------------------------------------------- the table

  class VerificationStore {
    var records: seq<Verification>
    var nextId: int
    var memberships: map<int, Membership>

    predicate Valid()
      reads this
    {
      AtMostOnePending(records) && AttemptsBounded(records)
    }

    constructor()
      ensures Valid() && records == [] && memberships == map[]
    {
      records := [];
      nextId := 1;
      memberships := map[];
    }

    /**
     * POST /email/send-code (lines 68-194). A rejected check writes nothing.
     * Otherwise the user's pending records are replaced by one fresh record;
     * a failed mail send is reported after the record was written.
     */
    method SendCode(userId: int, email: Option<string>, groups: seq<Group>, user: Option<User>,
                    emailUsedByOther: bool, now: int, code: string, sent: bool, mailConfigured: bool)
      returns (o: SendOutcome)
      requires Valid()
      modifies this
      ensures Valid()
      ensures memberships == old(memberships)
      ensures SendGate(email, groups, user, emailUsedByOther, RecentCount(old(records), userId, now), now).Failure? ==>
                o == SendRejected(SendGate(email, groups, user, emailUsedByOther, RecentCount(old(records), userId, now), now).error) && records == old(records)
      ensures SendGate(email, groups, user, emailUsedByOther, RecentCount(old(records), userId, now), now).Success? ==>
                records == DropPending(old(records), userId)
                           + [Verification(old(nextId), userId, SendGate(email, groups, user, emailUsedByOther, RecentCount(old(records), userId, now), now).value.0, code, now,
                                           now + VerificationExpiryMinutes * MinuteMs, 0, false)]
      ensures SendGate(email, groups, user, emailUsedByOther, RecentCount(old(records), userId, now), now).Success? ==>
                o == (if !sent && mailConfigured then SendRejected(EmailSendFailed) else CodeSent(SendGate(email, groups, user, emailUsedByOther, RecentCount(old(records), userId, now), now).value.1.name))
    {
      var gate := SendGate(email, groups, user, emailUsedByOther, RecentCount(records, userId, now), now);
      if gate.Failure? {
        return SendRejected(gate.error);
      }
      StorePending(userId, gate.value.0, code, now);
      if !sent && mailConfigured {
        return SendRejected(EmailSendFailed);
      }
      o := CodeSent(gate.value.1.name);
    }

    /** Lines 152-171: the user's pending records are deleted and one fresh record is inserted. */
    method StorePending(userId: int, email: string, code: string, now: int)
      requires Valid()
      modifies this
      ensures Valid()
      ensures memberships == old(memberships) && nextId == old(nextId) + 1
      ensures records == DropPending(old(records), userId)
                         + [Verification(old(nextId), userId, email, code, now, now + VerificationExpiryMinutes * MinuteMs, 0, false)]
    {
      var kept := DropPending(records, userId);
      var created := Verification(nextId, userId, email, code, now, now + VerificationExpiryMinutes * MinuteMs, 0, false);
      records := kept + [created];
      nextId := nextId + 1;
      ReplacePendingValid(old(records), userId, created);
    }

    /**
     * POST /email/verify (lines 200-300). The pending record is looked up,
     * then expiry and the attempt limit are checked; only then is an attempt
     * counted and the trimmed code compared.
     */
    method VerifyCode(userId: int, code: Option<string>, groups: seq<Group>, now: int)
      returns (o: VerifyOutcome)
      requires Valid()
      modifies this
      ensures Valid()
      ensures |records| == |old(records)|
      ensures code.None? || code.value == [] ==> o == VerifyRejected(CodeRequired)
      ensures var p := PendingIndex(old(records), userId);
              code.Some? && code.value != [] ==>
                (p.None? ==> o == VerifyRejected(NoPendingVerification))
                && (p.Some? && now > old(records)[p.value].expiresAt ==> o == VerifyRejected(Expired))
                && (p.Some? && now <= old(records)[p.value].expiresAt && old(records)[p.value].attempts >= MaxVerificationAttempts
                    ==> o == VerifyRejected(MaxAttempts))
      ensures o.VerifyRejected? && o.error in {CodeRequired, NoPendingVerification, Expired, MaxAttempts}
              ==> records == old(records) && memberships == old(memberships)
      ensures var p := PendingIndex(old(records), userId);
              o.VerifyRejected? && o.error in {InvalidCode, GroupNotFound} ==>
                p.Some? && records == old(records)[p.value := old(records)[p.value].(attempts := old(records)[p.value].attempts + 1)]
                && memberships == old(memberships)
      ensures var p := PendingIndex(old(records), userId);
              o == VerifyRejected(InvalidCode) ==> p.Some? && old(records)[p.value].code != Trim(code.value)
      ensures var p := PendingIndex(old(records), userId);
              o.Joined? ==>
                p.Some? && old(records)[p.value].code == Trim(code.value)
                && records == old(records)[p.value := old(records)[p.value].(attempts := old(records)[p.value].attempts + 1, isVerified := true)]
                && memberships == old(memberships)[userId := Membership(o.groupId, old(records)[p.value].email, now)]
                && PendingIndex(records, userId).None?
                && MatchGroup(groups, ExtractDomain(old(records)[p.value].email)).Some?
                && MatchGroup(groups, ExtractDomain(old(records)[p.value].email)).value.id == o.groupId
      ensures var p := PendingIndex(old(records), userId);
              code.Some? && code.value != [] && p.Some? && now <= old(records)[p.value].expiresAt
              && old(records)[p.value].attempts < MaxVerificationAttempts ==>
                (old(records)[p.value].code != Trim(code.value) ==> o == VerifyRejected(InvalidCode))
                && (old(records)[p.value].code == Trim(code.value) ==>
                      var m := MatchGroup(groups, ExtractDomain(old(records)[p.value].email));
                      (m.None? <==> o == VerifyRejected(GroupNotFound))
                      && (m.Some? ==> o == Joined(m.value.id)))
    {
      if code.None? || code.value == [] {
        return VerifyRejected(CodeRequired);
      }
      var p := PendingIndex(records, userId);
      if p.None? {
        return VerifyRejected(NoPendingVerification);
      }
      var i := p.value;
      var v := records[i];
      if now > v.expiresAt {
        return VerifyRejected(Expired);
      }
      if v.attempts >= MaxVerificationAttempts {
        return VerifyRejected(MaxAttempts);
      }
      // Lines 242-244 count the attempt before the code is compared: every
      // path from here on stores the record with one more attempt.
      var counted := v.(attempts := v.attempts + 1);
      CountAttemptValid(records, userId, i);
      if v.code != Trim(code.value) {
        records := records[i := counted];
        return VerifyRejected(InvalidCode);
      }
      var matched := MatchGroup(groups, ExtractDomain(v.email));
      if matched.None? {
        records := records[i := counted];
        return VerifyRejected(GroupNotFound);
      }
      MarkVerifiedValid(records, userId, i);
      records := records[i := counted.(isVerified := true)];
      memberships := memberships[userId := Membership(matched.value.id, v.email, now)];
      o := Joined(matched.value.id);
    }
  }

  /** An address is accepted by the gate only when it carries one '@' and a known domain. */
  lemma GateNeedsDomain(email: Option<string>, groups: seq<Group>, user: Option<User>, used: bool, recent: nat, now: int)
    requires SendGate(email, groups, user, used, recent, now).Success?
    ensures CountChar(Trim(Lower(email.value)), '@') == 1
    ensures exists i :: 0 <= i < |groups| && groups[i].isActive && Allows(groups[i], ExtractDomain(Trim(Lower(email.value))))
  {
    var g := SendGate(email, groups, user, used, recent, now).value.1;
    var m := MatchGroup(groups, ExtractDomain(Trim(Lower(email.value))));
    assert m.Some? && m.value == g;
    var i :| 0 <= i < |groups| && groups[i] == g;
  }
}
