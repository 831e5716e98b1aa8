/** Construction of an LC record from an identifier string and its figures
    (`createLC`). */
module Normalizer {
  import opened Types
  import opened Strings
  import NameSamples
  import opened Status

  /** The identifier proper: the first space-separated token; anything
      after the first space is a display annotation. */
  function Identifier(nameEmail: string): string
  {
    PrefixBefore(nameEmail, ' ')
  }

  /** The local part of an email-like identifier: everything before the
      first '@', or the whole token when there is none. */
  function LocalPart(email: string): string
  {
    PrefixBefore(email, '@')
  }

  /** The display name derived from an identifier: its local part with only
      the first '.' turned into a space, every digit removed and the first
      character upper-cased. */
  function DeriveName(email: string): string
  {
    Capitalize(RemoveDigits(ReplaceFirst(LocalPart(email), '.', ' ')))
  }

  /** The derived name has no '@' and no digit, starts with a character that
      is not a lower-case letter, and has one '.' fewer than the local part
      when the local part has one, otherwise as many. */
  lemma LemmaDeriveNameProperties(email: string)
    ensures '@' !in DeriveName(email)
    ensures forall k :: 0 <= k < |DeriveName(email)| ==> !IsDigit(DeriveName(email)[k])
    ensures |DeriveName(email)| == |RemoveDigits(ReplaceFirst(LocalPart(email), '.', ' '))|
    ensures |DeriveName(email)| > 0 ==>
              DeriveName(email)[0] == ToUpper(RemoveDigits(ReplaceFirst(LocalPart(email), '.', ' '))[0]) &&
              !IsLower(DeriveName(email)[0])
    ensures Occurrences(DeriveName(email), '.') ==
              (if '.' in LocalPart(email) then Occurrences(LocalPart(email), '.') - 1
               else Occurrences(LocalPart(email), '.'))
  {
    var local := LocalPart(email);
    var spaced := ReplaceFirst(local, '.', ' ');
    var stripped := RemoveDigits(spaced);
    var r := Capitalize(stripped);
    LemmaReplaceFirstOccurrences(local, '.', ' ', '.');
    LemmaReplaceFirstOccurrences(local, '.', ' ', '@');
    LemmaRemoveDigitsOccurrences(spaced, '.');
    LemmaRemoveDigitsOccurrences(spaced, '@');
    LemmaCapitalizeOccurrences(stripped, '.');
    LemmaCapitalizeOccurrences(stripped, '@');
    LemmaOccurrencesZero(local, '@');
    LemmaOccurrencesZero(r, '@');
  }

  /** Every figure kept by an LC is consistent: the combined metric is the
      sum of unique dials and talk time. */
  predicate Consistent(m: MetricData)
  {
    m.udPlusTt == m.uniqueDials + m.talktime
  }

  /** Builds an LC. The caller cannot supply `udPlusTt`: it is always
      recomputed from `ud` and `tt`. */
  function CreateLC(
    nameEmail: string, tl: string, mgr: string, att: string,
    couns: real, ud: real, tt: real, prod: real,
    adm: real, scr: real, off: real, ovr: real): (r: LC)
    ensures r.id == r.email
    ensures r.id <= nameEmail && ' ' !in r.id
    ensures |r.id| < |nameEmail| ==> nameEmail[|r.id|] == ' '
    ensures r.name == DeriveName(r.id)
    ensures r.tlName == tl && r.managerName == mgr
    ensures Consistent(r.metrics)
    ensures r.metrics.attendance == att && r.metrics.counselled == couns
    ensures r.metrics.uniqueDials == ud && r.metrics.talktime == tt
    ensures r.metrics.productivity == prod && r.metrics.admission == adm
    ensures r.metrics.screening == scr && r.metrics.offer == off
    ensures r.metrics.overall == ovr
  {
    var email := Identifier(nameEmail);
    LC(
      id := email,
      name := DeriveName(email),
      email := email,
      tlName := tl,
      managerName := mgr,
      metrics := MetricData(
        attendance := att,
        counselled := couns,
        uniqueDials := ud,
        talktime := tt,
        udPlusTt := ud + tt,
        productivity := prod,
        admission := adm,
        screening := scr,
        offer := off,
        overall := ovr))
  }

  /** Text after the first space never changes the record. */
  lemma LemmaCreateLCIgnoresAnnotation(
    token: string, note: string, tl: string, mgr: string, att: string,
    couns: real, ud: real, tt: real, prod: real,
    adm: real, scr: real, off: real, ovr: real)
    requires ' ' !in token
    ensures CreateLC(token + " " + note, tl, mgr, att, couns, ud, tt, prod, adm, scr, off, ovr)
         == CreateLC(token, tl, mgr, att, couns, ud, tt, prod, adm, scr, off, ovr)
  {
    LemmaPrefixBeforeIgnoresRest(token, ' ', note);
  }

  /** The name of a dotted identifier `a.b@d` is `a b` with the digits of
      both segments removed and capitalised; any further dots in `b`
      survive. */
  lemma LemmaDeriveNameDotted(a: string, b: string, d: string, email: string)
    requires '.' !in a && '@' !in a && '@' !in b
    requires email == a + ['.'] + b + ['@'] + d
    ensures DeriveName(email) == Capitalize(RemoveDigits(a) + [' '] + RemoveDigits(b))
  {
    var local := a + ['.'] + b;
    assert '@' !in local;
    LemmaPrefixBeforeIgnoresRest(local, '@', d);
    LemmaReplaceFirstAt(a, b, '.', ' ');
    LemmaRemoveDigitsAppend(a + [' '], b);
    LemmaRemoveDigitsAppend(a, [' ']);
    LemmaRemoveDigitsNone([' ']);
  }

  /** The name of an undotted identifier `a@d` is `a` with digits removed
      and capitalised. */
  lemma LemmaDeriveNameUndotted(a: string, d: string, email: string)
    requires '.' !in a && '@' !in a
    requires email == a + ['@'] + d
    ensures DeriveName(email) == Capitalize(RemoveDigits(a))
  {
    LemmaPrefixBeforeIgnoresRest(a, '@', d);
    LemmaReplaceFirstAt(a, [], '.', ' ');
  }

  /** Worked example: "bipin.jaiswal@herovired.com" is named "Bipin jaiswal". */
  lemma LemmaDeriveNameExampleDotted(first: string, last: string, domain: string)
    requires first == "bipin" && last == "jaiswal" && domain == "herovired.com"
    ensures DeriveName(first + "." + last + "@" + domain) == "Bipin jaiswal"
  {
    LemmaDeriveNameDotted(first, last, domain, first + "." + last + "@" + domain);
    NameSamples.LemmaSampleBipin();
  }

  /** Worked example: "vaibhav.sharma1@herovired.com" is named "Vaibhav sharma". */
  lemma LemmaDeriveNameExampleDigit(first: string, last: string, domain: string)
    requires first == "vaibhav" && last == "sharma1" && domain == "herovired.com"
    ensures DeriveName(first + "." + last + "@" + domain) == "Vaibhav sharma"
  {
    LemmaDeriveNameDotted(first, last, domain, first + "." + last + "@" + domain);
    NameSamples.LemmaSampleVaibhav();
  }

  /** Worked example: "suraj@herovired.com" is named "Suraj". */
  lemma LemmaDeriveNameExampleUndotted(local: string, domain: string)
    requires local == "suraj" && domain == "herovired.com"
    ensures DeriveName(local + "@" + domain) == "Suraj"
  {
    LemmaDeriveNameUndotted(local, domain, local + "@" + domain);
    NameSamples.LemmaSampleSuraj();
  }

  /** Worked example: only the first of several dots becomes a space, so
      "ravi.k.rao@x.com" is named "Ravi k.rao". */
  lemma LemmaDeriveNameExampleFirstDotOnly(first: string, rest: string, domain: string)
    requires first == "ravi" && rest == "k.rao" && domain == "x.com"
    ensures DeriveName(first + "." + rest + "@" + domain) == "Ravi k.rao"
  {
    LemmaDeriveNameDotted(first, rest, domain, first + "." + rest + "@" + domain);
    NameSamples.LemmaSampleRavi();
  }

  /** Worked example: digits are removed from the first segment too, so
      "ravi2.k@x.com" is named "Ravi k". */
  lemma LemmaDeriveNameExampleDigitFirst(first: string, rest: string, domain: string)
    requires first == "ravi2" && rest == "k" && domain == "x.com"
    ensures DeriveName(first + "." + rest + "@" + domain) == "Ravi k"
  {
    LemmaDeriveNameDotted(first, rest, domain, first + "." + rest + "@" + domain);
    NameSamples.LemmaSampleRaviTwo();
  }

  /** The first record of the demo dataset (constants.ts line 65): its id
      is the identifier, its name is derived from it, its combined metric is
      the exact sum of 69 dials and 54.52 minutes, and it is Poor. */
  lemma LemmaCreateLCExample(first: string, last: string, domain: string)
    requires first == "bipin" && last == "jaiswal" && domain == "herovired.com"
    ensures var r := CreateLC(first + "." + last + "@" + domain, "Divya Singh", "Avinash Kumar", "Absent",
                              3.0, 69.0, 54.52, 41.17, 0.0, 0.0, 0.0, 41.17);
      && r.id == first + "." + last + "@" + domain
      && r.name == "Bipin jaiswal"
      && r.metrics.udPlusTt == 123.52
      && GetStatus(r.metrics.overall) == Poor
  {
    LemmaPrefixBeforeIgnoresRest(first + "." + last + "@" + domain, ' ', "");
    LemmaDeriveNameExampleDotted(first, last, domain);
  }
}
