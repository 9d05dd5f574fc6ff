/**
 * The person identifier of the Sourcegraph API client: PersonSpec and its
 * encoding as one URL path segment, the names derived from a Person, and the
 * storage codec of the PersonStatType tag.
 */
module People {
  import opened Wrappers
  import opened GoStrings
  import opened Strconv

  /** Identifies a person by email, login or UID; the zero value of a field means "not set". */
  datatype PersonSpec = PersonSpec(email: string, login: string, uid: int)

  /** A registered user or a commit author; Go embeds the PersonSpec, here it is a field. */
  datatype Person = Person(spec: PersonSpec, fullName: string, avatarURL: string)

  /** The two results of ParsePersonSpec. */
  datatype ParseResult = ParseResult(spec: PersonSpec, err: Option<NumError>)

  const ANONYMOUS := "(anonymous)"

  /** A spec PathComponent can encode: otherwise it panics with "empty PersonSpec". */
  predicate Identifies(s: PersonSpec) {
    s.email != "" || s.login != "" || s.uid > 0
  }

  /** Login if set, else the part of Email before the first '@', else "(anonymous)". */
  function ShortName(p: Person): (r: string)
    ensures p.spec.login != "" ==> r == p.spec.login
    ensures p.spec.login == "" && '@' in p.spec.email ==>
              |r| < |p.spec.email| && r == p.spec.email[..|r|] &&
              p.spec.email[|r|] == '@' && '@' !in r
    ensures p.spec.login == "" && '@' !in p.spec.email ==> r == ANONYMOUS
  {
    if p.spec.login != "" then p.spec.login
    else
      var at := IndexByte(p.spec.email, '@');
      if at == -1 then ANONYMOUS else p.spec.email[..at]
  }

  /** A person made up on the fly, not resolved to a user: one without a UID. */
  predicate Transient(p: Person)
    ensures Transient(p) <==> p.spec.uid == 0
  {
    p.spec.uid == 0
  }

  /** Only resolved users have a profile page. */
  predicate HasProfile(p: Person)
    ensures HasProfile(p) <==> p.spec.uid != 0
  {
    !Transient(p)
  }

  /** The path segment for a spec: Email, else Login, else "$" and the decimal UID. */
  function PathComponent(s: PersonSpec): (r: string)
    requires Identifies(s)
    ensures |r| > 0
    ensures s.email != "" ==> r == s.email
    ensures s.email == "" && s.login != "" ==> r == s.login
    ensures s.email == "" && s.login == "" ==> r == "$" + Itoa(s.uid)
  {
    if s.email != "" then s.email
    else if s.login != "" then s.login
    else "$" + Itoa(s.uid)
  }

  /**
   * Decodes a path segment: after a '$' the rest must be a decimal UID (on a
   * syntax error the spec is the zero value), else text with an '@' is an email
   * and any other text is a login.
   */
  function ParsePersonSpec(t: string): (r: ParseResult)
    ensures |t| > 0 && t[0] == '$' ==>
              r.spec.email == "" && r.spec.login == "" &&
              (r.err.None? <==> IsDecimalInteger(t[1..])) &&
              (r.err.Some? ==> r.spec.uid == 0)
    ensures !(|t| > 0 && t[0] == '$') && '@' in t ==> r == ParseResult(PersonSpec(t, "", 0), None)
    ensures !(|t| > 0 && t[0] == '$') && '@' !in t ==> r == ParseResult(PersonSpec("", t, 0), None)
  {
    if HasPrefix(t, "$") then
      var a := Atoi(t[1..]);
      ParseResult(PersonSpec("", "", a.value), a.err)
    else if ContainsByte(t, '@') then ParseResult(PersonSpec(t, "", 0), None)
    else ParseResult(PersonSpec("", t, 0), None)
  }

  /** The UID segment PathComponent writes is '$' and the digits of the UID, no leading zero. */
  lemma UidPathComponent(s: PersonSpec)
    requires s.email == "" && s.login == "" && s.uid > 0
    ensures var r := PathComponent(s);
            |r| > 1 && r[0] == '$' && AllDigits(r[1..]) && r[1] != '0' &&
            Atoi(r[1..]) == AtoiResult(s.uid, None)
  {
    var r := PathComponent(s);
    assert r[1..] == Itoa(s.uid);
    AtoiItoa(s.uid);
  }

  /** '$' followed by an optional sign and digits decodes to that UID, without error. */
  lemma ParseUid(sign: string, digits: string)
    requires sign == "" || sign == "+" || sign == "-"
    requires |digits| > 0 && AllDigits(digits)
    ensures ParsePersonSpec("$" + (sign + digits)) ==
            ParseResult(PersonSpec("", "", if sign == "-" then -(DigitsValue(digits) as int)
                                           else DigitsValue(digits)), None)
  {
    var rest := sign + digits;
    var t := "$" + rest;
    assert HasPrefix(t, "$") && t[1..] == rest;
    AtoiSignedDigits(sign, digits);
  }

  /** A '$' followed by anything but a decimal integer is an error with the zero spec. */
  lemma ParseMalformedUid(rest: string)
    requires !IsDecimalInteger(rest)
    ensures ParsePersonSpec("$" + rest) ==
            ParseResult(PersonSpec("", "", 0), Some(ErrSyntax(rest)))
  {
    assert ("$" + rest)[1..] == rest;
  }

  /** The specs whose path segment decodes back to them. */
  predicate IsCanonical(s: PersonSpec) {
    || (s.email != "" && s.login == "" && s.uid == 0 && '@' in s.email && s.email[0] != '$')
    || (s.email == "" && s.login != "" && s.uid == 0 && '@' !in s.login && s.login[0] != '$')
    || (s.email == "" && s.login == "" && s.uid > 0)
  }

  /**
   * Round trip: decoding the path segment of a spec gives back that spec with no
   * error exactly when only one field is set and, for an email, it holds an '@'
   * and does not start with '$', and for a login, it holds no '@' and does not
   * start with '$'.
   */
  lemma RoundTrip(s: PersonSpec)
    requires Identifies(s)
    ensures ParsePersonSpec(PathComponent(s)) == ParseResult(s, None) <==> IsCanonical(s)
  {
    if s.email == "" && s.login == "" {
      UidPathComponent(s);
    }
  }

  /**
   * A decoded spec identifies someone exactly when the segment is not empty and
   * does not carry a UID that is zero or negative ("" and "$0" decode without
   * error to the empty spec, which PathComponent rejects).
   */
  lemma ParseIdentifies(t: string)
    requires ParsePersonSpec(t).err.None?
    ensures Identifies(ParsePersonSpec(t).spec) <==>
            t != "" && (t[0] == '$' ==> Atoi(t[1..]).value > 0)
  {
  }

  /**
   * Encoding a decoded spec that identifies someone gives a segment that decodes
   * to the same spec; it is the segment itself unless that carried a UID.
   */
  lemma ParseThenEncode(t: string)
    requires ParsePersonSpec(t).err.None? && Identifies(ParsePersonSpec(t).spec)
    ensures IsCanonical(ParsePersonSpec(t).spec)
    ensures ParsePersonSpec(PathComponent(ParsePersonSpec(t).spec)) == ParsePersonSpec(t)
    ensures t[0] != '$' ==> PathComponent(ParsePersonSpec(t).spec) == t
    ensures t[0] == '$' ==> PathComponent(ParsePersonSpec(t).spec) == "$" + Itoa(Atoi(t[1..]).value)
    ensures t[0] == '$' ==> (PathComponent(ParsePersonSpec(t).spec) == t <==> IsCanonicalDecimal(t[1..]))
  {
    RoundTrip(ParsePersonSpec(t).spec);
    if t[0] == '$' {
      var rest := t[1..];
      if IsCanonicalDecimal(rest) {
        ItoaAtoi(rest);
        assert t == "$" + rest;
      }
    }
  }

  /** Decoding is not injective: leading zeros in a UID are dropped. */
  lemma ParseNotInjective(digits: string)
    requires |digits| > 0 && AllDigits(digits)
    ensures "$0" + digits != "$" + digits
    ensures ParsePersonSpec("$0" + digits) == ParsePersonSpec("$" + digits)
  {
    assert |"$0" + digits| != |"$" + digits|;
    assert ("$0" + digits)[1..] == "0" + digits;
    assert ("$" + digits)[1..] == digits;
    AtoiIgnoresLeadingZero(digits);
  }

  /** A person decoded from an email or a login is transient; one from "$n" has a profile iff n != 0. */
  lemma ParsedPersonTransient(t: string, fullName: string, avatarURL: string)
    ensures var p := Person(ParsePersonSpec(t).spec, fullName, avatarURL);
            (|t| > 0 && t[0] == '$' ==> (HasProfile(p) <==> Atoi(t[1..]).value != 0)) &&
            (!(|t| > 0 && t[0] == '$') ==> Transient(p))
  {
  }

  /** The tag of a person statistic; Go declares it as a named string type. */
  datatype PersonStatType = PersonStatType(name: string)

  /**
   * The values a database driver exchanges with a Scanner or Valuer (Go's
   * driver.Value / interface{}): a string, a byte slice (each byte a char, as in
   * strings), or anything else.
   */
  datatype DriverValue = Str(s: string) | Bytes(data: seq<char>) | Other

  /** The error Scan returns for a value that is not a byte slice. */
  datatype DriverError = ScanFailed

  /** The two results of Value. */
  datatype ValueResult = ValueResult(value: DriverValue, err: Option<DriverError>)

  /** driver.Valuer: the tag is stored as its string, and storing never fails. */
  function Value(x: PersonStatType): (r: ValueResult)
    ensures r.err.None? && r.value.Str? && r.value.s == x.name
  {
    ValueResult(Str(x.name), None)
  }

  /** The PersonStatType variable that Scan writes through its pointer receiver. */
  class PersonStatTypeVar {
    var tag: PersonStatType

    constructor (initial: PersonStatType)
      ensures tag == initial
    {
      tag := initial;
    }

    /** sql.Scanner: a byte slice becomes the tag; any other value is an error and changes nothing. */
    method Scan(v: DriverValue) returns (err: Option<DriverError>)
      modifies this
      ensures v.Bytes? ==> err.None? && tag == PersonStatType(v.data)
      ensures !v.Bytes? ==> err.Some? && tag == old(tag)
    {
      if v.Bytes? {
        tag := PersonStatType(v.data);
        err := None;
      } else {
        err := Some(ScanFailed);
      }
    }
  }

  /** Storing a tag and scanning back the bytes of its string restores the tag. */
  method StoreAndLoad(x: PersonStatType, cell: PersonStatTypeVar) returns (err: Option<DriverError>)
    modifies cell
    ensures err.None? && cell.tag == x
  {
    var stored := Value(x);
    // The driver hands the stored string back as a byte slice, Go's []byte(s).
    err := cell.Scan(Bytes(stored.value.s));
  }

  /** Scan accepts only a byte slice: handed the string Value produced, it fails and keeps the old tag. */
  method ScanStoredString(x: PersonStatType, cell: PersonStatTypeVar) returns (err: Option<DriverError>)
    modifies cell
    ensures err.Some? && cell.tag == old(cell.tag)
  {
    var stored := Value(x);
    err := cell.Scan(stored.value);
  }
}
