/** Errors that reach the create path, and the two predicates that steer it. */
module ProviderErrors {
  import opened ErrorClasses

  /** An error value as `errors.As` and `errors.Is` see it. */
  datatype Error =
    | Http(status: int, code: string, message: string)
    | Request               // wraps ErrProviderRequest: transport or decoding
    | MutationBlocked       // wraps ErrMutationBlocked
    | OutcomeStillUnknown
    | EgressChanged
    | StoreFailure
    | Other                 // tenant, secret and any other unclassified error

  function ClassifyError(e: Error): ErrorClass {
    if e.Http? && e.status == 429 then RateLimited
    else if e.Http? && (e.status == 408 || e.status == 409 || e.status >= 500) then Retryable
    else if e.Http? && 400 <= e.status < 500 then Permanent
    else if e.Request? then Retryable
    else Unknown
  }

  const NEEDLES: seq<string> := ["region", "size", "capacity", "availability", "not available", "unavailable"]

  function Lower(c: char): char {
    if 'A' <= c <= 'Z' then c - 'A' + 'a' else c
  }

  function ToLower(s: string): string {
    seq(|s|, i requires 0 <= i < |s| => Lower(s[i]))
  }

  predicate Contains(s: string, sub: string) {
    sub <= s || (s != [] && Contains(s[1..], sub))
  }

  predicate Mentions(code: string, message: string) {
    exists n :: 0 <= n < |NEEDLES| && (Contains(ToLower(code), NEEDLES[n]) || Contains(ToLower(message), NEEDLES[n]))
  }

  predicate IsCapacityError(e: Error) {
    e.Http? && Mentions(e.code, e.message) && (e.status == 400 || e.status == 422)
  }

  /** The guard under which the region loop goes on to the next region. */
  predicate Advances(e: Error) {
    ClassifyError(e) == Permanent && IsCapacityError(e)
  }

  /** The executor records these as failed, every other provider error as unknown. */
  predicate IsDefinite(e: Error) {
    ClassifyError(e) == Permanent || e.MutationBlocked?
  }

  /** GET requests drop the body of an error response, so its code and message are empty. */
  predicate FromGet(e: Error) {
    e.Http? ==> e.code == "" && e.message == ""
  }

  /** The classification test of the loop is implied by its capacity test: the two
      together are exactly "400 or 422 that mentions a needle". */
  lemma AdvancesExactly(e: Error)
    ensures Advances(e) <==> IsCapacityError(e)
    ensures Advances(e) ==> e.status == 400 || e.status == 422
    ensures Advances(e) ==> IsDefinite(e)
  {
  }

  /** A failed listing never makes the region loop advance, whatever its status. */
  lemma ListErrorsNeverAdvance(e: Error)
    requires FromGet(e)
    ensures !Advances(e)
  {
    if e.Http? {
      assert ToLower("") == "";
      forall n | 0 <= n < |NEEDLES| ensures !Contains("", NEEDLES[n]) {
        assert |NEEDLES[n]| > 0;
      }
    }
  }

  /** The classification, by status. */
  lemma ClassesByStatus(e: Error)
    ensures ClassifyError(e) == RateLimited <==> e.Http? && e.status == 429
    ensures ClassifyError(e) == Retryable <==> e.Request? || (e.Http? && (e.status in {408, 409} || e.status >= 500))
    ensures ClassifyError(e) == Permanent <==> e.Http? && 400 <= e.status <= 499 && e.status !in {408, 409, 429}
  {
  }

  /** A definite answer is a refused mutation or a client error that no retry can mend. */
  lemma DefiniteByStatus(e: Error)
    ensures IsDefinite(e) <==>
              e.MutationBlocked? || (e.Http? && 400 <= e.status < 500 && e.status !in {408, 409, 429})
  {
    ClassesByStatus(e);
  }

  // ---- capacity errors, by their words ----

  /** `sub` stands somewhere in `s`. */
  ghost predicate Occurs(sub: string, s: string) {
    exists i :: OccursAt(sub, s, i)
  }

  ghost predicate OccursAt(sub: string, s: string, i: int) {
    0 <= i <= |s| - |sub| && s[i..i + |sub|] == sub
  }

  lemma {:induction false} ContainsIsOccurs(s: string, sub: string)
    ensures Contains(s, sub) <==> Occurs(sub, s)
  {
    if sub <= s {
      assert OccursAt(sub, s, 0);
    } else if s != [] {
      ContainsIsOccurs(s[1..], sub);
      if i :| OccursAt(sub, s, i) { OneFurther(s, sub, i - 1); }
      if i :| OccursAt(sub, s[1..], i) { OneFurther(s, sub, i); }
    }
  }

  lemma OneFurther(s: string, sub: string, i: nat)
    requires s != []
    ensures OccursAt(sub, s[1..], i) <==> OccursAt(sub, s, i + 1)
  {
    if i + 1 + |sub| <= |s| { assert s[1..][i..i + |sub|] == s[i + 1..i + 1 + |sub|]; }
  }

  /** The words that tell a capacity error, in either case, in the code or the message. */
  ghost predicate NamesCapacity(s: string) {
    || Occurs("region", ToLower(s)) || Occurs("size", ToLower(s)) || Occurs("capacity", ToLower(s))
    || Occurs("availability", ToLower(s)) || Occurs("not available", ToLower(s)) || Occurs("unavailable", ToLower(s))
  }

  lemma LowerCase(s: string)
    ensures |ToLower(s)| == |s|
    ensures forall i :: 0 <= i < |s| && !('A' <= s[i] <= 'Z') ==> ToLower(s)[i] == s[i]
    ensures forall i :: 0 <= i < |s| && 'A' <= s[i] <= 'Z' ==> ToLower(s)[i] as int == s[i] as int + 32
  {
  }

  /** A capacity error, exactly. */
  lemma CapacityByWords(e: Error)
    ensures IsCapacityError(e) <==>
              e.Http? && (e.status == 400 || e.status == 422) && (NamesCapacity(e.code) || NamesCapacity(e.message))
  {
    if e.Http? {
      ContainsNeedle(e.code);
      ContainsNeedle(e.message);
    }
  }

  lemma ContainsNeedle(s: string)
    ensures NamesCapacity(s) <==> exists n :: 0 <= n < |NEEDLES| && Contains(ToLower(s), NEEDLES[n])
  {
    var l := ToLower(s);
    ContainsIsOccurs(l, "region");
    ContainsIsOccurs(l, "size");
    ContainsIsOccurs(l, "capacity");
    ContainsIsOccurs(l, "availability");
    ContainsIsOccurs(l, "not available");
    ContainsIsOccurs(l, "unavailable");
    assert NEEDLES[0] == "region" && NEEDLES[1] == "size" && NEEDLES[2] == "capacity";
    assert NEEDLES[3] == "availability" && NEEDLES[4] == "not available" && NEEDLES[5] == "unavailable";
    assert |NEEDLES| == 6;
  }

  const NO_SIZE: Error := Http(422, "unprocessable_entity", "size is not available in this region")
  const BAD_NAME: Error := Http(422, "unprocessable_entity", "name is invalid")

  /** Two answers to a create request, as the provider words them. */
  lemma TwoAnswers()
    ensures IsCapacityError(NO_SIZE) && !IsCapacityError(BAD_NAME)
  {
    SizeInMessage(NO_SIZE.message);
    NoWordInMessage();
    NoWordInCode();
    CapacityByWords(NO_SIZE);
    CapacityByWords(BAD_NAME);
  }

  lemma SizeInMessage(s: string)
    requires s == "size is not available in this region"
    ensures Occurs("size", ToLower(s))
  {
    var l := ToLower(s);
    assert l[0] == 's' && l[1] == 'i' && l[2] == 'z' && l[3] == 'e';
    assert l[0..4] == "size";
    assert OccursAt("size", l, 0);
  }

  predicate InLowerCase(s: string) {
    forall c :: c in s ==> !('A' <= c <= 'Z')
  }

  lemma LowerStays(s: string)
    requires InLowerCase(s)
    ensures ToLower(s) == s
  {
    forall i | 0 <= i < |s| ensures ToLower(s)[i] == s[i] {
      assert s[i] in s;
    }
  }

  /** A word with a letter that the text lacks does not stand in it. */
  lemma LacksLetter(s: string, sub: string, j: nat)
    requires j < |sub| && sub[j] !in s
    ensures !Occurs(sub, s)
  {
    if i :| OccursAt(sub, s, i) { LetterAt(s, sub, i, j); }
  }

  lemma LetterAt(s: string, sub: string, i: int, j: nat)
    requires j < |sub| && OccursAt(sub, s, i)
    ensures 0 <= i + j < |s| && s[i + j] == sub[j]
  {
    assert s[i..i + |sub|][j] == s[i + j];
  }

  lemma LacksWords(s: string)
    requires InLowerCase(s) && 'g' !in s && 'z' !in s && ('v' !in s || 'b' !in s) && !Occurs("capacity", s)
    ensures !NamesCapacity(s)
  {
    LowerStays(s);
    LacksLetter(s, "region", 2);
    LacksLetter(s, "size", 2);
    if 'v' !in s {
      LacksLetter(s, "availability", 1);
      LacksLetter(s, "not available", 5);
      LacksLetter(s, "unavailable", 3);
    } else {
      LacksLetter(s, "availability", 6);
      LacksLetter(s, "not available", 10);
      LacksLetter(s, "unavailable", 8);
    }
  }

  lemma NoWordInMessage()
    ensures !NamesCapacity("name is invalid")
  {
    var s := "name is invalid";
    LacksLetter(s, "capacity", 0);
    LacksWords(s);
  }

  lemma NoWordInCode()
    ensures !NamesCapacity("unprocessable_entity")
  {
    var s := "unprocessable_entity";
    CodeLetters(s);
    OneC(s);
    NoCapacity(s, 5);
    LacksWords(s);
  }

  lemma CodeLetters(s: string)
    requires s == "unprocessable_entity"
    ensures InLowerCase(s) && 'g' !in s && 'z' !in s && 'v' !in s
  {
  }

  lemma OneC(s: string)
    requires s == "unprocessable_entity"
    ensures s[6] == 'e' && 'c' !in s[..5] && 'c' !in s[6..]
  {
    assert s[..5] == "unpro";
    assert s[6..] == "essable_entity";
  }

  /** The only c of the text has no a behind it. */
  lemma NoCapacity(s: string, n: nat)
    requires n + 1 < |s| && s[n + 1] != 'a' && 'c' !in s[..n] && 'c' !in s[n + 1..]
    ensures !Occurs("capacity", s)
  {
    if i :| OccursAt("capacity", s, i) {
      LetterAt(s, "capacity", i, 0);
      LetterAt(s, "capacity", i, 1);
      if i != n { NotHere(s, n, i); }
    }
  }

  lemma NotHere(s: string, n: nat, i: nat)
    requires i < |s| && n < |s| && i != n && 'c' !in s[..n] && 'c' !in s[n + 1..]
    ensures s[i] != 'c'
  {
    if i < n { assert s[..n][i] == s[i]; } else { assert s[n + 1..][i - n - 1] == s[i]; }
  }
}
