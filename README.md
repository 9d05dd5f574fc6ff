# PersonSpec codec of the Sourcegraph API client, in Dafny

This project models the person identifier of the Go Sourcegraph API client
vendored in `ccat` (`sourcegraph/people.go`):

- `PersonSpec` names a person by email, login or numeric UID. `PathComponent`
  writes it as one URL path segment: the email, else the login, else `$` and
  the decimal UID; with none of them set it panics. `ParsePersonSpec` reads a
  segment back: after a `$` the rest must be a decimal integer, text holding an
  `@` is an email, anything else is a login.
- `Person` adds a full name and an avatar URL; `ShortName`, `Transient` and
  `HasProfile` are derived from its fields.
- `PersonStatType` is a string tag stored through the `database/sql` driver
  interfaces: `Value` hands out its string, `Scan` accepts a byte slice.

Files and modules:

- `wrappers.dfy` (`Wrappers`): `Option`, standing for Go's nil or non-nil `error`.
- `go_strings.dfy` (`GoStrings`): `strings.HasPrefix`, and `strings.Index` and
  `strings.Contains` for a one-byte needle (`IndexByte`, `ContainsByte`), which
  is how Go itself computes them.
- `strconv.dfy` (`Strconv`): `strconv.Itoa` and `strconv.Atoi`, written out
  because the model cannot call Go's library. Atoi follows Go: an optional `+`
  or `-`, then one or more digits, leading zeros allowed; anything else is a
  syntax error whose value is 0.
- `people.dfy` (`People`): the core. The pure operations are functions with
  lemmas about them. `Scan`, which writes through its pointer receiver, is a
  method of the class `PersonStatTypeVar` that holds the tag.

A Go string is a sequence of bytes. Here each character of a Dafny `string`
stands for one byte, and a byte slice is a `seq<char>` under the same rule. The
characters the code looks for, `@` and `$`, are single ASCII bytes, so byte
indices and character indices agree.

The main results:

- `RoundTrip`: decoding `PathComponent(s)` gives back `s` with no error exactly
  when `s` is canonical. Canonical means one field is set, and that field is
  a UID above 0, an email holding `@` that does not start with `$`, or a login
  holding no `@` that does not start with `$`.
- `ParseThenEncode`: decoding any segment that decodes with no error to a spec
  that identifies someone, and encoding the result, gives a segment that
  decodes the same way. A segment with no UID comes back unchanged; a UID
  segment comes back as `$` followed by the canonical digits of its UID, so
  `$007` and `$+7` come back as `$7` (decoding is not injective).
- `ParseIdentifies`: `""` and `$0` decode with no error to a spec that
  identifies nobody, which `PathComponent` would reject. A negative UID
  (`$-3`) also decodes with no error.
- `ScanStoredString`: `Scan` accepts only a byte slice, so it rejects the
  string that `Value` produces. The round trip holds through a byte slice
  (`StoreAndLoad`).

`PathComponent` requires `Identifies(s)`: email or login non-empty, or UID
above 0. The code panics when a spec has none of these. This is stricter than
the doc comment at people.go:72-73, which asks only that some field be
"nonempty": a spec with only a negative UID meets the comment but still panics.
The model follows the code.

## Model

| member | source | states |
|---|---|---|
| `GoStrings.IndexByte` | Godeps/_workspace/src/sourcegraph.com/sourcegraph/go-sourcegraph/sourcegraph/people.go:51-52 | stands for `strings.Index` with a one-byte needle: -1 exactly when the byte is absent; otherwise an index holding it with no earlier occurrence |
| `GoStrings.HasPrefix` | Godeps/_workspace/src/sourcegraph.com/sourcegraph/go-sourcegraph/sourcegraph/people.go:107 | holds exactly when the string is at least as long as the prefix and agrees with it position by position |
| `GoStrings.ContainsByte` | Godeps/_workspace/src/sourcegraph.com/sourcegraph/go-sourcegraph/sourcegraph/people.go:111 | true exactly when the byte occurs in the string |
| `Strconv.FormatNat` | Godeps/_workspace/src/sourcegraph.com/sourcegraph/go-sourcegraph/sourcegraph/people.go:95 | a non-empty run of digits, with no leading zero unless the number is 0, whose value is the number |
| `Strconv.Itoa` | Godeps/_workspace/src/sourcegraph.com/sourcegraph/go-sourcegraph/sourcegraph/people.go:95 | canonical decimal text, starting with `-` exactly for negative numbers |
| `Strconv.Atoi` | Godeps/_workspace/src/sourcegraph.com/sourcegraph/go-sourcegraph/sourcegraph/people.go:108 | no error exactly when the text is an optionally signed run of one or more digits; on error the value is 0 and the error carries the input |
| `Strconv.AtoiItoa` | Godeps/_workspace/src/sourcegraph.com/sourcegraph/go-sourcegraph/sourcegraph/people.go:95-108 | Atoi reads back every integer Itoa writes, with no error |
| `Strconv.ItoaInjective` | Godeps/_workspace/src/sourcegraph.com/sourcegraph/go-sourcegraph/sourcegraph/people.go:95 | distinct integers get distinct decimal text |
| `Strconv.ItoaAtoi` | Godeps/_workspace/src/sourcegraph.com/sourcegraph/go-sourcegraph/sourcegraph/people.go:95-108 | on canonical decimal text Atoi succeeds and Itoa writes the same text back |
| `Strconv.AtoiSignedDigits` | Godeps/_workspace/src/sourcegraph.com/sourcegraph/go-sourcegraph/sourcegraph/people.go:108 | an optional sign and digits parse to the signed value of the digits |
| `Strconv.AtoiIgnoresLeadingZero` | Godeps/_workspace/src/sourcegraph.com/sourcegraph/go-sourcegraph/sourcegraph/people.go:108 | a leading zero does not change the result, so Atoi is not injective |
| `People.ShortName` | Godeps/_workspace/src/sourcegraph.com/sourcegraph/go-sourcegraph/sourcegraph/people.go:45-56 | the login if set; else the prefix of the email before its first `@`, which holds no `@`; else `(anonymous)` |
| `People.Transient` | Godeps/_workspace/src/sourcegraph.com/sourcegraph/go-sourcegraph/sourcegraph/people.go:58-60 | holds exactly when the UID is 0 |
| `People.HasProfile` | Godeps/_workspace/src/sourcegraph.com/sourcegraph/go-sourcegraph/sourcegraph/people.go:58-64 | holds exactly when the UID is not 0, the negation of Transient |
| `People.PathComponent` | Godeps/_workspace/src/sourcegraph.com/sourcegraph/go-sourcegraph/sourcegraph/people.go:86-98 | a non-empty segment: the email if set, else the login if set, else `$` and the decimal UID; defined only for a spec that identifies someone, where the code panics otherwise |
| `People.ParsePersonSpec` | Godeps/_workspace/src/sourcegraph.com/sourcegraph/go-sourcegraph/sourcegraph/people.go:104-115 | after `$` only the UID is set, and there is no error exactly when the rest is a decimal integer; on error the spec is zero; other text with `@` is the email and without `@` the login, never with an error |
| `People.UidPathComponent` | Godeps/_workspace/src/sourcegraph.com/sourcegraph/go-sourcegraph/sourcegraph/people.go:94-96 | a UID-only spec encodes as `$` followed by digits with no leading zero that Atoi reads back as the UID |
| `People.ParseUid` | Godeps/_workspace/src/sourcegraph.com/sourcegraph/go-sourcegraph/sourcegraph/people.go:107-110 | `$`, an optional sign and digits decode, with no error, to the spec whose only field is that signed UID |
| `People.ParseMalformedUid` | Godeps/_workspace/src/sourcegraph.com/sourcegraph/go-sourcegraph/sourcegraph/people.go:107-110 | `$` followed by anything but a decimal integer (`$`, `$abc`) decodes to the zero spec with a syntax error |
| `People.RoundTrip` | Godeps/_workspace/src/sourcegraph.com/sourcegraph/go-sourcegraph/sourcegraph/people.go:86-115 | decoding a spec's segment gives back the spec with no error if and only if the spec is canonical |
| `People.ParseIdentifies` | Godeps/_workspace/src/sourcegraph.com/sourcegraph/go-sourcegraph/sourcegraph/people.go:104-115 | a spec decoded with no error identifies someone exactly when the segment is non-empty and any UID in it is above 0 |
| `People.ParseThenEncode` | Godeps/_workspace/src/sourcegraph.com/sourcegraph/go-sourcegraph/sourcegraph/people.go:86-115 | a decoded spec that identifies someone is canonical; its segment decodes to it again; it equals the original segment when that held no UID, and a UID segment comes back unchanged exactly when its digits are canonical |
| `People.ParseNotInjective` | Godeps/_workspace/src/sourcegraph.com/sourcegraph/go-sourcegraph/sourcegraph/people.go:107-109 | `$0` followed by digits and `$` followed by the same digits are different segments that decode alike |
| `People.ParsedPersonTransient` | Godeps/_workspace/src/sourcegraph.com/sourcegraph/go-sourcegraph/sourcegraph/people.go:58-64 | a person decoded from an email or login is transient; one decoded from `$n` has a profile exactly when n is not 0 |
| `People.Value` | Godeps/_workspace/src/sourcegraph.com/sourcegraph/go-sourcegraph/sourcegraph/people.go:152-154 | the stored value is the tag's string, and there is never an error |
| `People.PersonStatTypeVar.Scan` | Godeps/_workspace/src/sourcegraph.com/sourcegraph/go-sourcegraph/sourcegraph/people.go:156-162 | a byte slice becomes the tag with no error; any other value gives an error and leaves the tag as it was |
| `People.StoreAndLoad` | Godeps/_workspace/src/sourcegraph.com/sourcegraph/go-sourcegraph/sourcegraph/people.go:152-160 | scanning the bytes of the string Value stores restores the tag, with no error |
| `People.ScanStoredString` | Godeps/_workspace/src/sourcegraph.com/sourcegraph/go-sourcegraph/sourcegraph/people.go:152-162 | scanning the string itself fails and leaves the tag unchanged |

## Left out

- `peopleService.Get`, the `PeopleService` interface and its mock (people.go:14-26, 117-135, 164): HTTP request building and network I/O through `Client.URL`, `NewRequest` and `Do`. The client and router code is not part of this model.
- `AvatarURLOfSize` (people.go:68-70): it delegates to `avatarURLOfSize`, which is not part of this model.
- `RouteVars` (people.go:100-102): it only puts `PathComponent` into a one-key map under `"PersonSpec"` for the router.
- `PersonStats` and the stat-name constants (people.go:139-150): they only declare data.
- `People.PersonStatTypeVar.Scan`: the error is one generic `ScanFailed` value. Go's `fmt.Errorf` message text and its `%T` / `%v` formatting are not modelled.
- `People.PersonStatTypeVar.Scan`: Go's dynamic `interface{}` type assertion is replaced by the closed `DriverValue` datatype, with a string, a byte-slice and an "other" variant.
- `Strconv.Atoi`: integers are unbounded, so Go's range error for values outside the range of Go's `int` (a clamped value with `ErrRange`) is not modelled. For such a UID segment Go's `ParsePersonSpec` returns a clamped UID with a non-nil error; the model returns the exact UID with no error.
- `Strconv.Itoa`: it writes integers of any size, whereas Go's `int` is 32 or 64 bits, depending on the platform. `PersonSpec.uid` is an unbounded `int` for the same reason.
- Strings are sequences of characters, each standing for one byte. UTF-8 is not modelled; only single-byte ASCII characters are searched for, so this does not change any result.
