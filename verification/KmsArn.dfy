/** The two independent readers of a KMS key ARN, and the storage names derived from it. */
module KmsArn {
  import opened Basics
  import opened Text
  import Hex

  /** The parts of `arn:<partition>:kms:<region>:<account>:key/<keyId>`. */
  datatype KeyArn = KeyArn(partition: string, region: string, account: string, keyId: string)

  function Fields(a: KeyArn): seq<string> {
    ["arn", a.partition, "kms", a.region, a.account, "key/" + a.keyId]
  }

  function Compose(a: KeyArn): string {
    Join(Fields(a), ':')
  }

  ghost predicate ColonFree(a: KeyArn) {
    !Contains(a.partition, ':') && !Contains(a.region, ':') && !Contains(a.account, ':')
  }

  predicate IsSafe(c: char) {
    'a' <= c <= 'z' || 'A' <= c <= 'Z' || '0' <= c <= '9' || c == '-'
  }

  predicate SafeId(id: string) {
    forall i :: 0 <= i < |id| ==> IsSafe(id[i])
  }

  datatype ArnError = NotAFullArn | MissingKeyId | UnsafeKeyId

  /** Region reader: six colon-separated fields, the sixth keeping any further colon. */
  function RegionFromArn(arn: string): Result<string, ArnError> {
    var parts := SplitN(arn, ':', 6);
    if |parts| != 6 || parts[0] != "arn" || parts[2] != "kms" || parts[3] == "" || parts[4] == ""
       || !StartsWith(parts[5], "key/")
    then Err(NotAFullArn)
    else Ok(parts[3])
  }

  /** Account reader: validates with the region reader, then takes field 4 of the full split. */
  function AccountFromArn(arn: string): (account: Result<string, ArnError>)
    ensures account.Ok? <==> RegionFromArn(arn).Ok?
  {
    match RegionFromArn(arn)
    case Err(e) => Err(e)
    case Ok(_) =>
      SplitNPrefix(arn, ':', 6);
      Ok(Split(arn, ':')[4])
  }

  /** Everything after the first ":key/". */
  function KeyIdFromArn(arn: string): Result<string, ArnError> {
    match SplitOnce(arn, ":key/")
    case None => Err(MissingKeyId)
    case Some((_, id)) =>
      if id == "" then Err(MissingKeyId)
      else if !SafeId(id) then Err(UnsafeKeyId)
      else Ok(id)
  }

  function LastEight(id: string): string {
    if |id| <= 8 then id else id[|id| - 8..]
  }

  function DisplayId(arn: string): Result<string, ArnError> {
    match KeyIdFromArn(arn)
    case Err(e) => Err(e)
    case Ok(id) => Ok(LastEight(id))
  }

  /** The storage id ends in the first twelve hexadecimal digits of the digest of the ARN. */
  function StorageId(arnDigest: Bytes, arn: string): Result<string, ArnError>
    requires |arnDigest| == 32
  {
    match DisplayId(arn)
    case Err(e) => Err(e)
    case Ok(display) => Ok(display + "-" + Hex.Encode(arnDigest)[..12])
  }

  /** Part of a composed ARN before its last ":key/". */
  function Head(a: KeyArn): string {
    "arn:" + a.partition + ":kms:" + a.region + ":" + a.account
  }

  lemma HeadIsJoin(a: KeyArn)
    ensures Join(["arn", a.partition, "kms", a.region, a.account], ':') == Head(a)
  {
    var p, r, c := a.partition, a.region, a.account;
    JoinCons(r, [c], ':');
    JoinCons("kms", [r, c], ':');
    JoinCons(p, ["kms", r, c], ':');
    JoinCons("arn", [p, "kms", r, c], ':');
    assert [r] + [c] == [r, c] && ["kms"] + [r, c] == ["kms", r, c];
    assert [p] + ["kms", r, c] == [p, "kms", r, c] && ["arn"] + [p, "kms", r, c] == ["arn", p, "kms", r, c];
    assert Head(a) == "arn" + [':'] + (p + [':'] + ("kms" + [':'] + (r + [':'] + c)));
  }

  lemma {:induction false} JoinLast(front: seq<string>, last: string)
    requires |front| >= 1
    ensures Join(front + [last], ':') == Join(front, ':') + ":" + last
  {
    if |front| == 1 {
      assert front + [last] == [front[0]] + [last];
      JoinCons(front[0], [last], ':');
    } else {
      JoinLast(front[1..], last);
      JoinCons(front[0], front[1..] + [last], ':');
      assert front + [last] == [front[0]] + (front[1..] + [last]);
    }
  }

  lemma ComposeShape(a: KeyArn)
    ensures Compose(a) == Head(a) + ":key/" + a.keyId
  {
    var front := ["arn", a.partition, "kms", a.region, a.account];
    HeadIsJoin(a);
    JoinLast(front, "key/" + a.keyId);
    assert Fields(a) == front + ["key/" + a.keyId];
    assert ":" + ("key/" + a.keyId) == ":key/" + a.keyId;
  }

  /** The fields are what the six-way split returns, whatever the key id holds. */
  lemma ComposedFields(a: KeyArn)
    requires ColonFree(a)
    ensures SplitN(Compose(a), ':', 6) == Fields(a)
    ensures |Split(Compose(a), ':')| >= 6 && Split(Compose(a), ':')[4] == a.account
  {
    var front, last := ["arn", a.partition, "kms", a.region, a.account], "key/" + a.keyId;
    assert Fields(a) == front + [last];
    SplitNOfJoin(front, last);
  }

  lemma SplitNOfJoin(front: seq<string>, last: string)
    requires |front| == 5 && forall k :: 0 <= k < 5 ==> !Contains(front[k], ':')
    ensures SplitN(Join(front + [last], ':'), ':', 6) == front + [last]
    ensures |Split(Join(front + [last], ':'), ':')| >= 6 && Split(Join(front + [last], ':'), ':')[4] == front[4]
  {
    hide Join;
    hide Contains;
    // Split the sixth field further, so that the whole list is separator-free.
    var tail := Split(last, ':');
    JoinSplit(last, ':');
    JoinAppend(front, tail);
    SplitJoin(front + tail, ':');
    SplitNPrefix(Join(front + [last], ':'), ':', 6);
    assert (front + tail)[..5] == front && (front + tail)[5..] == tail;
  }

  /** The region reader accepts only composed ARNs, and both validating readers speak about that composition. */
  lemma RegionReaderExact(arn: string) returns (a: KeyArn)
    requires RegionFromArn(arn).Ok?
    ensures ColonFree(a) && Compose(a) == arn && a.region != "" && a.account != ""
    ensures RegionFromArn(arn) == Ok(a.region) && AccountFromArn(arn) == Ok(a.account)
  {
    var parts := SplitN(arn, ':', 6);
    a := PartsAreFields(parts);
    JoinSplitN(arn, ':', 6);
    FrontFieldsColonFree(arn, a);
  }

  lemma FrontFieldsColonFree(arn: string, a: KeyArn)
    requires SplitN(arn, ':', 6) == Fields(a)
    ensures ColonFree(a) && |Split(arn, ':')| >= 6 && Split(arn, ':')[4] == a.account
  {
    SplitNPrefix(arn, ':', 6);
    var all := Split(arn, ':');
    assert Fields(a)[1] == all[1] && Fields(a)[3] == all[3] && Fields(a)[4] == all[4];
  }

  lemma PartsAreFields(parts: seq<string>) returns (a: KeyArn)
    requires |parts| == 6 && parts[0] == "arn" && parts[2] == "kms" && StartsWith(parts[5], "key/")
    ensures Fields(a) == parts && a.region == parts[3] && a.account == parts[4]
  {
    var last := parts[5];
    a := KeyArn(parts[1], parts[3], parts[4], last[4..]);
    assert last == last[..4] + last[4..];
    assert last[..4] == "key/";
  }

  lemma RegionReaderAccepts(a: KeyArn)
    requires ColonFree(a)
    ensures RegionFromArn(Compose(a)).Ok? <==> a.region != "" && a.account != ""
    ensures RegionFromArn(Compose(a)).Ok? ==>
              RegionFromArn(Compose(a)) == Ok(a.region) && AccountFromArn(Compose(a)) == Ok(a.account)
  {
    ComposedFields(a);
    assert StartsWith("key/" + a.keyId, "key/");
  }

  lemma {:induction false} JoinAppend(front: seq<string>, back: seq<string>)
    requires |back| >= 1
    ensures Join(front + back, ':') == Join(front + [Join(back, ':')], ':')
  {
    if front == [] {
      assert front + back == back && front + [Join(back, ':')] == [Join(back, ':')];
    } else {
      assert (front + back)[1..] == front[1..] + back;
      assert (front + [Join(back, ':')])[1..] == front[1..] + [Join(back, ':')];
      JoinAppend(front[1..], back);
    }
  }

  /** Some field before the last one would be taken for the resource by the first-match reader. */
  ghost predicate EarlyKey(a: KeyArn) {
    StartsWith(a.partition, "key/") || StartsWith(a.region, "key/") || StartsWith(a.account, "key/")
  }

  lemma FoundAt(s: string, pattern: string, at: nat)
    requires at + |pattern| <= |s| && s[at..at + |pattern|] == pattern
    ensures Find(s, pattern).Some? && Find(s, pattern).value <= at
  {
    assert pattern <= s[at..];
  }

  lemma FieldAt(s: string, before: string, field: string, after: string)
    requires s == before + ":" + field + ":" + after && StartsWith(field, "key/")
    ensures Find(s, ":key/").Some? && Find(s, ":key/").value <= |before|
  {
    var at := |before|;
    assert field == "key/" + field[4..];
    assert s == before + ":key/" + (field[4..] + ":" + after);
    assert s[at..at + 5] == ":key/";
    FoundAt(s, ":key/", at);
  }

  /** In separator-free fields joined by colons, an inner ":key/" starts a field. */
  lemma {:induction false} InnerKeyStartsField(fields: seq<string>, rest: string, at: nat)
    requires |fields| >= 1 && forall k :: 0 <= k < |fields| ==> !Contains(fields[k], ':')
    requires at < |Join(fields, ':')| && ":key/" <= (Join(fields, ':') + ":" + rest)[at..]
    ensures exists k :: 1 <= k < |fields| && StartsWith(fields[k], "key/")
  {
    var s, first := Join(fields, ':') + ":" + rest, |fields[0]|;
    assert s[at] == s[at..][0] == ':';
    assert forall j :: 0 <= j < first ==> s[j] == fields[0][j];
    assert first <= at;
    if |fields| > 1 {
      var more := Join(fields[1..], ':') + ":" + rest;
      assert s == fields[0] + ":" + more;
      if at == first {
        assert s[at..] == ":" + more;
        assert "key/" == ":key/"[1..] <= more;
        var tail := if |fields| == 2 then rest else Join(fields[2..], ':') + ":" + rest;
        assert |fields| > 2 ==> fields[1..][1..] == fields[2..];
        assert more == fields[1] + ":" + tail;
        KeyBeforeColon(fields[1], tail);
        assert StartsWith(fields[1], "key/");
      } else {
        assert s[at..] == more[at - first - 1..];
        InnerKeyStartsField(fields[1..], rest, at - first - 1);
        var k :| 1 <= k < |fields[1..]| && StartsWith(fields[1..][k], "key/");
        assert StartsWith(fields[k + 1], "key/");
      }
    }
  }

  lemma KeyBeforeColon(field: string, tail: string)
    requires "key/" <= field + ":" + tail
    ensures StartsWith(field, "key/")
  {
    var s, pattern := field + ":" + tail, "key/";
    assert s[|field|] == ':';
    assert forall i :: 0 <= i < 4 ==> s[i] == pattern[i] && s[i] != ':';
    assert |pattern| <= |field|;
    assert s[..|pattern|] == field[..|pattern|];
  }

  /** An occurrence of ":key/" strictly inside the head starts one of its variable fields. */
  lemma EarlierOccurrence(a: KeyArn, at: nat)
    requires ColonFree(a)
    requires at < |Head(a)| <= |Compose(a)| && ":key/" <= Compose(a)[at..]
    ensures EarlyKey(a)
  {
    ComposeShape(a);
    var front := Fields(a)[..5];
    assert front == ["arn", a.partition, "kms", a.region, a.account];
    HeadIsJoin(a);
    assert Compose(a) == Join(front, ':') + ":" + ("key/" + a.keyId);
    InnerKeyStartsField(front, "key/" + a.keyId, at);
  }

  lemma ColonInTail(s: string, early: nat, late: nat)
    requires early < late && late + 5 <= |s| && s[early..early + 5] == s[late..late + 5] == ":key/"
    ensures s[early + 5..] != "" && !SafeId(s[early + 5..])
  {
    var x, y := s[early..early + 5], s[late..late + 5];
    assert x[1] == s[early + 1] && x[2] == s[early + 2] && x[3] == s[early + 3] && x[4] == s[early + 4];
    assert y[0] == s[late];
    assert s[early + 5..][late - early - 5] == ':';
  }

  lemma DisplayReads(a: KeyArn)
    requires ColonFree(a)
    ensures DisplayId(Compose(a)).Ok? <==> a.keyId != "" && SafeId(a.keyId) && !EarlyKey(a)
    ensures DisplayId(Compose(a)).Ok? ==> DisplayId(Compose(a)) == Ok(LastEight(a.keyId))
  {
    ComposeShape(a);
    var s, h := Compose(a), Head(a);
    assert s[|h|..|h| + 5] == ":key/";
    FoundAt(s, ":key/", |h|);
    var i := Find(s, ":key/").value;
    if i < |h| {
      assert ":key/" <= s[i..];
      EarlierOccurrence(a, i);
      ColonInTail(s, i, |h|);
    } else {
      assert s[i + 5..] == a.keyId;
      if EarlyKey(a) {
        EarlyKeyFoundEarly(a);
        assert false;
      }
    }
  }

  /**
   * What the first-match reader does on every ARN the region reader accepts: it succeeds exactly when the key id is
   * non-empty, of letters, digits and hyphens, and no earlier field begins with "key/"; it then returns the last eight
   * characters of the key id, or all of it when it is shorter.
   */
  lemma DisplayReaderExact(a: KeyArn)
    requires ColonFree(a)
    ensures DisplayId(Compose(a)).Ok? <==>
              && a.keyId != "" && !EarlyKey(a)
              && forall i :: 0 <= i < |a.keyId| ==>
                   'a' <= a.keyId[i] <= 'z' || 'A' <= a.keyId[i] <= 'Z' || '0' <= a.keyId[i] <= '9' || a.keyId[i] == '-'
    ensures DisplayId(Compose(a)).Ok? ==>
              DisplayId(Compose(a)) == Ok(if |a.keyId| < 8 then a.keyId else a.keyId[|a.keyId| - 8..])
  {
    hide DisplayId;
    hide Compose;
    DisplayReads(a);
  }

  /** The composed ARN, cut after each of its early fields. */
  lemma ComposeCuts(a: KeyArn)
    ensures Compose(a) == "arn" + ":" + a.partition + ":" + ("kms:" + a.region + ":" + a.account + ":key/" + a.keyId)
    ensures Compose(a) == ("arn:" + a.partition + ":kms") + ":" + a.region + ":" + (a.account + ":key/" + a.keyId)
    ensures Compose(a) == ("arn:" + a.partition + ":kms:" + a.region) + ":" + a.account + ":" + ("key/" + a.keyId)
  {
    hide Compose;
    ComposeShape(a);
  }

  lemma EarlyKeyFoundEarly(a: KeyArn)
    requires EarlyKey(a)
    ensures Find(Compose(a), ":key/").Some? && Find(Compose(a), ":key/").value < |Head(a)|
  {
    hide Find;
    hide Compose;
    ComposeCuts(a);
    var s := Compose(a);
    if StartsWith(a.partition, "key/") {
      FieldAt(s, "arn", a.partition, "kms:" + a.region + ":" + a.account + ":key/" + a.keyId);
    } else if StartsWith(a.region, "key/") {
      FieldAt(s, "arn:" + a.partition + ":kms", a.region, a.account + ":key/" + a.keyId);
    } else {
      FieldAt(s, "arn:" + a.partition + ":kms:" + a.region, a.account, "key/" + a.keyId);
    }
  }

  lemma DecompositionUnique(a: KeyArn, b: KeyArn)
    requires ColonFree(a) && ColonFree(b) && Compose(a) == Compose(b)
    ensures a == b
  {
    ComposedFields(a);
    ComposedFields(b);
    assert Fields(a)[1] == Fields(b)[1] && Fields(a)[3] == Fields(b)[3] && Fields(a)[4] == Fields(b)[4];
    assert Fields(a)[5] == Fields(b)[5];
    assert a.keyId == Fields(a)[5][4..] && b.keyId == Fields(b)[5][4..];
  }

  /**
   * Agreement: an ARN both readers accept has exactly six colon-separated fields, decomposes in one way, and
   * both readers speak about that decomposition.
   */
  lemma ReadersAgree(arn: string) returns (a: KeyArn)
    requires RegionFromArn(arn).Ok? && DisplayId(arn).Ok?
    ensures ColonFree(a) && Compose(a) == arn && Split(arn, ':') == Fields(a)
    ensures RegionFromArn(arn) == Ok(a.region) && AccountFromArn(arn) == Ok(a.account)
    ensures DisplayId(arn) == Ok(LastEight(a.keyId)) && a.keyId != "" && SafeId(a.keyId)
    ensures forall b: KeyArn :: ColonFree(b) && Compose(b) == arn ==> b == a
  {
    a := RegionReaderExact(arn);
    DisplayReads(a);
    SafeFields(a);
    SplitJoin(Fields(a), ':');
    forall b: KeyArn | ColonFree(b) && Compose(b) == arn ensures b == a {
      DecompositionUnique(a, b);
    }
  }

  lemma SafeFields(a: KeyArn)
    requires ColonFree(a) && SafeId(a.keyId)
    ensures forall k :: 0 <= k < 6 ==> !Contains(Fields(a)[k], ':')
  {
    var last := "key/" + a.keyId;
    assert forall i :: 4 <= i < |last| ==> last[i] == a.keyId[i - 4];
    assert !Contains(last, ':');
  }

  /** Start-up validation reads only region and account, so it lets through ARNs that have no storage name. */
  lemma ValidatedArnWithoutStorageName(arnDigest: Bytes)
    requires |arnDigest| == 32
    ensures var arn := Compose(KeyArn("aws", "eu-west-1", "111122223333", "my_key"));
            AccountFromArn(arn).Ok? && StorageId(arnDigest, arn).Err?
  {
    var a := KeyArn("aws", "eu-west-1", "111122223333", "my_key");
    assert !SafeId(a.keyId) by { assert !IsSafe(a.keyId[2]); }
    assert ColonFree(a);
    RegionReaderAccepts(a);
    DisplayReads(a);
  }
}
