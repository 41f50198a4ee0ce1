/** The in-memory table of short links: creation with collision retries,
    lookup, and counted redirects. */
module UrlShortening {
  import opened Wrappers
  import opened ShortUrls

  type Byte = b: int | 0 <= b < 256

  /** The 62 characters a code is drawn from: the lower-case letters, the
      upper-case letters and the digits, written in pieces. */
  const CodeAlphabet: string :=
    "abcdefghijklm" + "nopqrstuvwxyz" + "ABCDEFGHIJKLM" + "NOPQRSTUVWXYZ" + "0123456789"

  /** The settings a service gets when the caller names none. */
  const DefaultCodeLength: int := 8
  const DefaultMaxGenerationAttempts: int := 20

  /** The position of a character in CodeAlphabet, or -1 outside it. */
  function AlphabetIndex(c: char): int {
    if 'a' <= c <= 'z' then c as int - 'a' as int
    else if 'A' <= c <= 'Z' then 26 + (c as int - 'A' as int)
    else if '0' <= c <= '9' then 52 + (c as int - '0' as int)
    else -1
  }

  /** AlphabetIndex undoes indexing into the alphabet, so no character
      occurs in it twice. */
  lemma AlphabetIndexInverts(i: int)
    requires 0 <= i < |CodeAlphabet|
    ensures AlphabetIndex(CodeAlphabet[i]) == i
  {
    if i < 13 {
      assert CodeAlphabet[i] == "abcdefghijklm"[i];
      EarlyLowerInverts(i);
    } else if i < 26 {
      assert CodeAlphabet[i] == "nopqrstuvwxyz"[i - 13];
      LateLowerInverts(i - 13);
    } else if i < 39 {
      assert CodeAlphabet[i] == "ABCDEFGHIJKLM"[i - 26];
      EarlyUpperInverts(i - 26);
    } else if i < 52 {
      assert CodeAlphabet[i] == "NOPQRSTUVWXYZ"[i - 39];
      LateUpperInverts(i - 39);
    } else {
      assert CodeAlphabet[i] == "0123456789"[i - 52];
      DigitInverts(i - 52);
    }
  }

  // The five pieces of the alphabet, each with its characters' indices.

  lemma EarlyLowerInverts(k: int)
    requires 0 <= k < 13
    ensures AlphabetIndex("abcdefghijklm"[k]) == k
  {
  }

  lemma LateLowerInverts(k: int)
    requires 0 <= k < 13
    ensures AlphabetIndex("nopqrstuvwxyz"[k]) == 13 + k
  {
  }

  lemma EarlyUpperInverts(k: int)
    requires 0 <= k < 13
    ensures AlphabetIndex("ABCDEFGHIJKLM"[k]) == 26 + k
  {
  }

  lemma LateUpperInverts(k: int)
    requires 0 <= k < 13
    ensures AlphabetIndex("NOPQRSTUVWXYZ"[k]) == 39 + k
  {
  }

  lemma DigitInverts(k: int)
    requires 0 <= k < 10
    ensures AlphabetIndex("0123456789"[k]) == 52 + k
  {
  }

  /** The code for a buffer of random bytes: byte i picks character i,
      modulo the size of the alphabet. */
  function CodeOf(bytes: seq<Byte>): (code: string)
    ensures |code| == |bytes|
    ensures forall i :: 0 <= i < |code| ==> code[i] in CodeAlphabet
  {
    seq(|bytes|, i requires 0 <= i < |bytes| => CodeAlphabet[bytes[i] % |CodeAlphabet|])
  }

  /** The alphabet positions of a code's characters. */
  function Positions(code: string): seq<int> {
    seq(|code|, i requires 0 <= i < |code| => AlphabetIndex(code[i]))
  }

  /** A code gives back the bytes it was made from, modulo 62. */
  lemma CodeRoundTrip(bytes: seq<Byte>)
    ensures Positions(CodeOf(bytes)) == seq(|bytes|, i requires 0 <= i < |bytes| => bytes[i] % 62)
  {
    var code := CodeOf(bytes);
    forall i | 0 <= i < |bytes|
      ensures Positions(code)[i] == bytes[i] % 62
    {
      AlphabetIndexInverts(bytes[i] % |CodeAlphabet|);
    }
  }

  /** Two buffers of one length give the same code exactly when their bytes
      agree modulo 62. */
  lemma SameCode(b1: seq<Byte>, b2: seq<Byte>)
    requires |b1| == |b2|
    ensures CodeOf(b1) == CodeOf(b2) <==> forall i :: 0 <= i < |b1| ==> b1[i] % 62 == b2[i] % 62
  {
    if CodeOf(b1) == CodeOf(b2) {
      CodeRoundTrip(b1);
      CodeRoundTrip(b2);
      forall i | 0 <= i < |b1|
        ensures b1[i] % 62 == b2[i] % 62
      {
        assert Positions(CodeOf(b1))[i] == Positions(CodeOf(b2))[i];
      }
    }
  }

  /** The bytes the random number generator fills into the buffer of
      attempt `attempt`: the stream `random` cut into blocks of `length`. */
  function AttemptBytes(random: nat -> Byte, attempt: nat, length: nat): (bytes: seq<Byte>)
    ensures |bytes| == length
  {
    seq(length, i requires 0 <= i < length => random(attempt * length + i))
  }

  function CodeAt(random: nat -> Byte, attempt: nat, length: nat): string {
    CodeOf(AttemptBytes(random, attempt, length))
  }

  /** The characters that char.IsWhiteSpace accepts. */
  const WhiteSpace: set<char> := {
    '\t', '\n', '\U{000B}', '\U{000C}', '\r', ' ', '\U{0085}', '\U{00A0}', '\U{1680}',
    '\U{2000}', '\U{2001}', '\U{2002}', '\U{2003}', '\U{2004}', '\U{2005}', '\U{2006}',
    '\U{2007}', '\U{2008}', '\U{2009}', '\U{200A}', '\U{2028}', '\U{2029}', '\U{202F}',
    '\U{205F}', '\U{3000}'}

  /** string.IsNullOrWhiteSpace: empty, or white space only. */
  predicate IsBlank(s: string) {
    forall i :: 0 <= i < |s| ==> s[i] in WhiteSpace
  }

  /** No alphabet character is white space, so no generated code is blank. */
  lemma CodeIsNotBlank(bytes: seq<Byte>)
    requires |bytes| > 0
    ensures !IsBlank(CodeOf(bytes))
  {
    var i := bytes[0] % |CodeAlphabet|;
    AlphabetIndexInverts(i);
    var c := CodeOf(bytes)[0];
    assert c == CodeAlphabet[i];
    AlphabetIsNotWhiteSpace(c);
  }

  lemma AlphabetIsNotWhiteSpace(c: char)
    requires AlphabetIndex(c) >= 0
    ensures c !in WhiteSpace
  {
  }

  /** When a new entry expires: a time-to-live counts from creation. */
  function ExpiryFor(createdAt: Instant, timeToLive: Option<Span>): (expiresAt: Option<Instant>)
    ensures expiresAt.Some? <==> timeToLive.Some?
    ensures timeToLive.Some? && timeToLive.value > 0 ==>
      && !ExpiredAt(expiresAt, createdAt)
      && ExpiredAt(expiresAt, createdAt + timeToLive.value)
      && !ExpiredAt(expiresAt, createdAt + timeToLive.value - 1)
    ensures timeToLive.None? ==> forall now :: !ExpiredAt(expiresAt, now)
  {
    if timeToLive.Some? then Some(createdAt + timeToLive.value) else None
  }

  /** The first attempt, from `attempt` on and below `max`, whose code is
      not a key of the table yet. */
  function FirstFree(keys: set<string>, keyOf: string -> string, random: nat -> Byte, length: nat,
                     attempt: nat, max: nat): (r: Option<nat>)
    ensures r.Some? ==>
      && attempt <= r.value < max
      && keyOf(CodeAt(random, r.value, length)) !in keys
      && forall k :: attempt <= k < r.value ==> keyOf(CodeAt(random, k, length)) in keys
    ensures r.None? ==> forall k :: attempt <= k < max ==> keyOf(CodeAt(random, k, length)) in keys
    decreases max - attempt
  {
    if attempt >= max then None
    else if keyOf(CodeAt(random, attempt, length)) !in keys then Some(attempt)
    else FirstFree(keys, keyOf, random, length, attempt + 1, max)
  }

  datatype UrlError =
    | InvalidCodeLength
    | InvalidMaxGenerationAttempts
    | InvalidUrl              // not an absolute http or https URL
    | InvalidTimeToLive       // a time-to-live that is not positive
    | CodeSpaceExhausted      // every attempt produced a code already in use

  /** Builds the random code for one attempt, one character per byte. */
  method GenerateCode(bytes: seq<Byte>) returns (code: string)
    ensures code == CodeOf(bytes)
  {
    var length := |bytes|;
    var chars := new char[length];
    for i := 0 to length
      invariant forall j :: 0 <= j < i ==> chars[j] == CodeAlphabet[bytes[j] % |CodeAlphabet|]
    {
      chars[i] := CodeAlphabet[bytes[i] % |CodeAlphabet|];
    }
    code := chars[..];
  }

  /** The table of short links. Keys are compared ignoring case: `keyOf`
      maps a code to its case-insensitive key. `parseUrl` gives the
      normalised text of an absolute http or https URL, or None for
      anything else. */
  class InMemoryUrlShorteningService {
    const keyOf: string -> string
    const parseUrl: string -> Option<string>
    const codeLength: nat
    const maxGenerationAttempts: nat
    var urls: map<string, ShortUrl>

    /** Codes are not empty, and every entry is filed under the key of its
        own code. */
    ghost predicate Valid()
      reads this
    {
      && codeLength > 0
      && forall k :: k in urls ==> k == keyOf(urls[k].code)
    }

    /** The constructor proper, for positive settings; Create models the
        checks that throw. */
    constructor (keyOf: string -> string, parseUrl: string -> Option<string>, codeLength: int, maxGenerationAttempts: int)
      requires codeLength > 0 && maxGenerationAttempts > 0
      ensures Valid() && urls == map[]
      ensures this.keyOf == keyOf && this.parseUrl == parseUrl
      ensures this.codeLength == codeLength && this.maxGenerationAttempts == maxGenerationAttempts
    {
      this.keyOf := keyOf;
      this.parseUrl := parseUrl;
      this.codeLength := codeLength;
      this.maxGenerationAttempts := maxGenerationAttempts;
      urls := map[];
    }

    static method Create(keyOf: string -> string, parseUrl: string -> Option<string>, codeLength: int, maxGenerationAttempts: int)
      returns (r: Result<InMemoryUrlShorteningService, UrlError>)
      ensures codeLength <= 0 ==> r == Failure(InvalidCodeLength)
      ensures codeLength > 0 && maxGenerationAttempts <= 0 ==> r == Failure(InvalidMaxGenerationAttempts)
      ensures codeLength > 0 && maxGenerationAttempts > 0 ==>
        && r.Success? && fresh(r.value) && r.value.Valid() && r.value.urls == map[]
        && r.value.keyOf == keyOf && r.value.parseUrl == parseUrl
        && r.value.codeLength == codeLength && r.value.maxGenerationAttempts == maxGenerationAttempts
    {
      if codeLength <= 0 {
        return Failure(InvalidCodeLength);
      }
      if maxGenerationAttempts <= 0 {
        return Failure(InvalidMaxGenerationAttempts);
      }
      var service := new InMemoryUrlShorteningService(keyOf, parseUrl, codeLength, maxGenerationAttempts);
      return Success(service);
    }

    /** A service with the default settings: codes of 8 characters, at most
        20 attempts. */
    static method CreateWithDefaults(keyOf: string -> string, parseUrl: string -> Option<string>)
      returns (r: Result<InMemoryUrlShorteningService, UrlError>)
      ensures r.Success? && fresh(r.value) && r.value.Valid() && r.value.urls == map[]
      ensures r.value.codeLength == 8 && r.value.maxGenerationAttempts == 20
    {
      r := Create(keyOf, parseUrl, DefaultCodeLength, DefaultMaxGenerationAttempts);
    }

    /** Whether the creation inputs are refused before any code is drawn. */
    predicate Rejects(originalUrl: string, timeToLive: Option<Span>) {
      parseUrl(originalUrl).None? || (timeToLive.Some? && timeToLive.value <= 0)
    }

    /** Adds an entry for `originalUrl` under the first generated code that
        is not in use, trying at most maxGenerationAttempts codes. `now` is
        the clock reading and `random` the random number generator's output. */
    method CreateShortUrl(originalUrl: string, timeToLive: Option<Span>, now: Instant, random: nat -> Byte)
      returns (r: Result<ShortUrl, UrlError>)
      requires Valid()
      modifies this
      ensures Valid()
      ensures parseUrl(originalUrl).None? ==> r == Failure(InvalidUrl) && urls == old(urls)
      ensures parseUrl(originalUrl).Some? && timeToLive.Some? && timeToLive.value <= 0 ==>
        r == Failure(InvalidTimeToLive) && urls == old(urls)
      ensures !Rejects(originalUrl, timeToLive) ==>
        var free := FirstFree(old(urls).Keys, keyOf, random, codeLength, 0, maxGenerationAttempts);
        && (free.None? ==> r == Failure(CodeSpaceExhausted) && urls == old(urls))
        && (free.Some? ==>
              var code := CodeAt(random, free.value, codeLength);
              && r.Success? && fresh(r.value)
              && keyOf(code) !in old(urls)
              && urls == old(urls)[keyOf(code) := r.value]
              && r.value.code == code
              && r.value.originalUrl == parseUrl(originalUrl).value
              && r.value.createdAt == now
              && r.value.expiresAt == ExpiryFor(now, timeToLive)
              && r.value.accessCount == 0 && r.value.lastAccessedAt.None?)
    {
      var uri := parseUrl(originalUrl);
      if uri.None? {
        return Failure(InvalidUrl);
      }
      if timeToLive.Some? && timeToLive.value <= 0 {
        return Failure(InvalidTimeToLive);
      }
      var createdAt := now;
      var expiresAt := if timeToLive.Some? then Some(createdAt + timeToLive.value) else None;
      ghost var free := FirstFree(urls.Keys, keyOf, random, codeLength, 0, maxGenerationAttempts);
      var attempt := 0;
      while attempt < maxGenerationAttempts
        invariant 0 <= attempt <= maxGenerationAttempts
        invariant urls == old(urls)
        invariant FirstFree(urls.Keys, keyOf, random, codeLength, attempt, maxGenerationAttempts) == free
      {
        var buffer := AttemptBytes(random, attempt, codeLength);
        var code := GenerateCode(buffer);
        var shortUrl := new ShortUrl(code, uri.value, createdAt, expiresAt);
        if keyOf(code) !in urls {
          urls := urls[keyOf(code) := shortUrl];
          return Success(shortUrl);
        }
        attempt := attempt + 1;
      }
      return Failure(CodeSpaceExhausted);
    }

    /** The code of any attempt finds the entry filed under its key: with
        CreateShortUrl's contract, a lookup by the code just created gives
        back the new entry. */
    lemma GeneratedCodeIsFound(random: nat -> Byte, attempt: nat, entry: ShortUrl)
      requires Valid()
      requires keyOf(CodeAt(random, attempt, codeLength)) in urls
      requires urls[keyOf(CodeAt(random, attempt, codeLength))] == entry
      ensures Entry(CodeAt(random, attempt, codeLength)) == Some(entry)
    {
      CodeIsNotBlank(AttemptBytes(random, attempt, codeLength));
    }

    /** The entry a code finds: none for a blank or unknown code. */
    function Entry(code: string): (r: Option<ShortUrl>)
      reads this
      ensures r.Some? <==> !IsBlank(code) && keyOf(code) in urls
      ensures r.Some? ==> r.value == urls[keyOf(code)]
    {
      if IsBlank(code) || keyOf(code) !in urls then None else Some(urls[keyOf(code)])
    }

    method TryGetShortUrl(code: string) returns (found: bool, shortUrl: Option<ShortUrl>)
      ensures IsBlank(code) ==> !found && shortUrl.None?
      ensures !IsBlank(code) ==> (found <==> keyOf(code) in urls)
      ensures found ==> shortUrl == Some(urls[keyOf(code)])
      ensures !found ==> shortUrl.None?
    {
      if IsBlank(code) {
        return false, None;
      }
      if keyOf(code) in urls {
        return true, Some(urls[keyOf(code)]);
      }
      return false, None;
    }

    /** The objects a hit on `code` may change: the entry it finds, if any. */
    function Touched(code: string): set<ShortUrl>
      reads this
    {
      if Entry(code).Some? then {Entry(code).value} else {}
    }

    /** Counts a redirect through `code` at the clock reading `now`: a blank
        or unknown code finds nothing, an expired entry is handed back
        without counting, any other entry counts one access. */
    method TryRegisterHit(code: string, now: Instant) returns (hit: bool, shortUrl: Option<ShortUrl>)
      modifies Touched(code)
      ensures Entry(code).None? ==> !hit && shortUrl.None?
      ensures Entry(code).Some? ==>
        var entry := Entry(code).value;
        && shortUrl == Some(entry)
        && (hit <==> !entry.IsExpired(now))
        && (hit ==> entry.accessCount == old(entry.accessCount) + 1 && entry.lastAccessedAt == Some(now))
        && (!hit ==> entry.accessCount == old(entry.accessCount) && entry.lastAccessedAt == old(entry.lastAccessedAt))
    {
      if IsBlank(code) {
        return false, None;
      }
      if keyOf(code) !in urls {
        return false, None;
      }
      var existing := urls[keyOf(code)];
      if existing.IsExpired(now) {
        return false, Some(existing);
      }
      existing.RegisterAccess(now);
      return true, Some(existing);
    }
  }
}
