/** The text keys of the program: decimal numbers, pull-request keys, delivery ids, the
    GitLab diff-refs key and the GitLab note id, each with the function that reads it back. */
module Keys {
  import opened Basics

  // ----- Go's %d -----

  const DIGITS: string := "0123456789"

  predicate IsDigit(c: char) {
    '0' <= c <= '9'
  }

  predicate AllDigits(s: string) {
    forall i | 0 <= i < |s| :: IsDigit(s[i])
  }

  function DecNat(n: nat): string {
    if n < 10 then [DIGITS[n]] else DecNat(n / 10) + [DIGITS[n % 10]]
  }

  function Dec(n: int): string {
    if n < 0 then "-" + DecNat(-n) else DecNat(n)
  }

  function ReadNat(s: string): nat
    requires AllDigits(s)
  {
    if s == [] then 0 else 10 * ReadNat(s[..|s| - 1]) + (s[|s| - 1] as int - '0' as int)
  }

  function ReadDec(s: string): Option<int> {
    if s != [] && AllDigits(s) then Some(ReadNat(s))
    else if s != [] && s[0] == '-' && AllDigits(s[1..]) then Some(0 - ReadNat(s[1..]))
    else None
  }

  lemma {:induction false} DecNatDigits(n: nat)
    ensures DecNat(n) != [] && AllDigits(DecNat(n))
  {
    if n >= 10 {
      DecNatDigits(n / 10);
    }
  }

  lemma {:induction false} ReadNatOfDecNat(n: nat)
    requires AllDigits(DecNat(n))
    ensures ReadNat(DecNat(n)) == n
  {
    if n >= 10 {
      var s := DecNat(n);
      assert s[..|s| - 1] == DecNat(n / 10);
      ReadNatOfDecNat(n / 10);
    }
  }

  lemma DigitsOnly(s: string, c: char)
    requires AllDigits(s) && c in s
    ensures IsDigit(c)
  {
  }

  lemma ReadDecOfDec(n: int)
    ensures ReadDec(Dec(n)) == Some(n)
    ensures forall c | c in Dec(n) :: IsDigit(c) || c == '-'
  {
    var digits := DecNat(if n < 0 then -n else n);
    DecNatDigits(if n < 0 then -n else n);
    ReadNatOfDecNat(if n < 0 then -n else n);
    forall c | c in digits ensures IsDigit(c) {
      DigitsOnly(digits, c);
    }
    if n < 0 {
      var s := "-" + digits;
      assert s[0] == '-' && s[1..] == digits && !AllDigits(s);
    }
  }

  // ----- pull-request keys -----

  /** Identifies a pull request in pr_reviews and posted_comments. */
  function PRKey(provider: string, repo: string, number: int): string {
    provider + ":" + repo + "#" + Dec(number)
  }

  function ReadPRKey(key: string): Option<(string, string, int)> {
    match SplitLast(key, '#')
    case None => None
    case Some((left, digits)) =>
      match (SplitFirst(left, ':'), ReadDec(digits))
      case (Some((provider, repo)), Some(n)) => Some((provider, repo, n))
      case _ => None
  }

  /** A pull-request key reads back, whatever the repository is called. */
  lemma PRKeyRoundTrip(provider: string, repo: string, number: int)
    requires ':' !in provider
    ensures ReadPRKey(PRKey(provider, repo, number)) == Some((provider, repo, number))
  {
    ReadDecOfDec(number);
    SplitLastOfJoin(provider + ":" + repo, '#', Dec(number));
    SplitFirstOfJoin(provider, ':', repo);
  }

  // ----- delivery ids -----

  const REOPENED: string := "reopened"

  /** The idempotency key of a delivery, unique in the jobs table. */
  function DeliveryId(provider: string, repo: string, number: int, head: string, reopened: bool): string {
    PRKey(provider, repo, number) + ":" + head + if reopened then ":" + REOPENED else ""
  }

  datatype DeliveryKey = DeliveryKey(provider: string, repo: string, number: int, head: string, reopened: bool)

  function ReadHeadKey(s: string, reopened: bool): Option<DeliveryKey> {
    match SplitLast(s, ':')
    case None => None
    case Some((key, head)) =>
      match ReadPRKey(key)
      case None => None
      case Some((provider, repo, n)) => Some(DeliveryKey(provider, repo, n, head, reopened))
  }

  function ReadDeliveryId(id: string): Option<DeliveryKey> {
    match SplitLast(id, ':')
    case Some((rest, last)) =>
      if last == REOPENED then ReadHeadKey(rest, true) else ReadHeadKey(id, false)
    case None => None
  }

  /** A commit id as both forges write it. */
  predicate IsHex(s: string) {
    s != [] && forall c | c in s :: '0' <= c <= '9' || 'a' <= c <= 'f'
  }

  lemma ReadHeadKeyOfJoin(provider: string, repo: string, number: int, head: string, reopened: bool)
    requires ':' !in provider && ':' !in head
    ensures ReadHeadKey(PRKey(provider, repo, number) + ":" + head, reopened)
         == Some(DeliveryKey(provider, repo, number, head, reopened))
  {
    PRKeyRoundTrip(provider, repo, number);
    SplitLastOfJoin(PRKey(provider, repo, number), ':', head);
  }

  /** A delivery id reads back to all five of its parts when the head is a commit id; the
      repository may hold ':' and '#'. */
  lemma DeliveryIdRoundTrip(k: DeliveryKey)
    requires ':' !in k.provider && IsHex(k.head)
    ensures ReadDeliveryId(DeliveryId(k.provider, k.repo, k.number, k.head, k.reopened)) == Some(k)
  {
    ReadHeadKeyOfJoin(k.provider, k.repo, k.number, k.head, k.reopened);
    var key := PRKey(k.provider, k.repo, k.number);
    var id := DeliveryId(k.provider, k.repo, k.number, k.head, k.reopened);
    if k.reopened {
      assert ':' !in REOPENED;
      SplitLastOfJoin(key + ":" + k.head, ':', REOPENED);
      assert id == key + ":" + k.head + ":" + REOPENED;
    } else {
      SplitLastOfJoin(key, ':', k.head);
      assert id == key + ":" + k.head;
      assert REOPENED[0] == 'r' && 'r' in REOPENED && 'r' !in k.head;
    }
  }

  /** Why the head has to be a commit id: with other heads two different deliveries share
      one key, and the second one is dropped. */
  lemma HeadsWithColonsCollide()
    ensures DeliveryId("github", "o/r", 1, "ab:reopened", false) == DeliveryId("github", "o/r", 1, "ab", true)
    ensures !IsHex("ab:reopened")
  {
    var key := PRKey("github", "o/r", 1);
    assert "ab:reopened" == "ab" + ":reopened";
    assert key + ":" + "ab:reopened" + "" == key + ":" + "ab" + (":" + REOPENED);
    assert "ab:reopened"[2] == ':' && "ab:reopened"[2] in "ab:reopened";
  }

  // ----- the keys as they are written -----

  lemma KeysAsWritten()
    ensures PRKey("gitlab", "a/b", 12) == "gitlab:a/b#12"
    ensures DeliveryId("gitlab", "a/b", 12, "c0de", false) == "gitlab:a/b#12:c0de"
    ensures DeliveryId("gitlab", "a/b", 12, "c0de", true) == "gitlab:a/b#12:c0de:reopened"
    ensures RefsKey("a/b", 12, "c0de") == "a/b#12@c0de"
    ensures NoteId(12, -3) == "12/-3"
  {
    assert DecNat(12) == DecNat(1) + "2" && DecNat(1) == "1" && DecNat(3) == "3";
    assert Dec(12) == "12" && Dec(-3) == "-3";
  }

  // ----- GitLab keys -----

  /** The key of the diff-refs memo. */
  function RefsKey(repo: string, iid: int, head: string): string {
    repo + "#" + Dec(iid) + "@" + head
  }

  function ReadRefsKey(key: string): Option<(string, int, string)> {
    match SplitLast(key, '@')
    case None => None
    case Some((left, head)) =>
      match SplitLast(left, '#')
      case None => None
      case Some((repo, digits)) =>
        match ReadDec(digits)
        case None => None
        case Some(n) => Some((repo, n, head))
  }

  lemma RefsKeyRoundTrip(repo: string, iid: int, head: string)
    requires IsHex(head)
    ensures ReadRefsKey(RefsKey(repo, iid, head)) == Some((repo, iid, head))
    ensures RefsKey(repo, iid, head) != ""
  {
    ReadDecOfDec(iid);
    SplitLastOfJoin(repo + "#" + Dec(iid), '@', head);
    SplitLastOfJoin(repo, '#', Dec(iid));
  }

  /** The id under which a GitLab summary note is stored, and the two path parts an update
      cuts out of it. */
  function NoteId(iid: int, note: int): string {
    Dec(iid) + "/" + Dec(note)
  }

  /** An update addresses the note that the post created. */
  lemma NoteIdRoundTrip(iid: int, note: int)
    ensures SplitFirst(NoteId(iid, note), '/') == Some((Dec(iid), Dec(note)))
    ensures ReadDec(Dec(iid)) == Some(iid) && ReadDec(Dec(note)) == Some(note)
    ensures NoteId(iid, note) != ""
  {
    ReadDecOfDec(iid);
    ReadDecOfDec(note);
    SplitFirstOfJoin(Dec(iid), '/', Dec(note));
  }
}
