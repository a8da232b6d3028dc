/**
 * The image upload route (`app/api/upload-image/route.ts`): without a file it
 * answers 400 and writes nothing; otherwise the file is stored under
 * `<timestamp>-<sanitised name>` and its public URL is that name after "/".
 * The timestamp (`Date.now()`) is a parameter, and the file contents are not
 * modelled.
 */
module UploadImage {
  import opened Wrappers
  import opened Text
  import Seqs

  /** The characters `[a-zA-Z0-9.\-_]` lets through. */
  predicate Allowed(c: char) {
    ('a' <= c <= 'z') || ('A' <= c <= 'Z') || ('0' <= c <= '9') || c == '.' || c == '-' || c == '_'
  }

  /** `name.replace(/[^a-zA-Z0-9.\-_]/g, "")`. */
  function Sanitize(name: string): (r: string)
    ensures forall k :: 0 <= k < |r| ==> Allowed(r[k])
    ensures '/' !in r && '\\' !in r
  {
    Seqs.Filter(name, Allowed)
  }

  /** Only disallowed characters are deleted: the allowed ones stay, in order, each as often as before; sanitising twice changes nothing. */
  lemma SanitizeKeepsAllowed(name: string, c: char)
    ensures Seqs.IsSubseq(Sanitize(name), name)
    ensures multiset(Sanitize(name))[c] == if Allowed(c) then multiset(name)[c] else 0
    ensures Sanitize(Sanitize(name)) == Sanitize(name)
    ensures (forall k :: 0 <= k < |name| ==> Allowed(name[k])) ==> Sanitize(name) == name
  {
    Seqs.FilterIsSubseq(name, Allowed);
    Seqs.FilterMultiplicity(name, Allowed, c);
    Seqs.FilterIdempotent(name, Allowed);
    if forall k :: 0 <= k < |name| ==> Allowed(name[k]) {
      Seqs.FilterKeepsAll(name, Allowed);
    }
  }

  /** `` `${Date.now()}-${sanitised}` ``. */
  function FileName(now: nat, name: string): string {
    NatToString(now) + "-" + Sanitize(name)
  }

  /** The stored name is made of allowed characters only, so it names a file directly inside the public directory. */
  lemma FileNameAllowed(now: nat, name: string)
    ensures forall k :: 0 <= k < |FileName(now, name)| ==> Allowed(FileName(now, name)[k])
    ensures '/' !in FileName(now, name) && '\\' !in FileName(now, name)
  {
    var ts := NatToString(now);
    var san := Sanitize(name);
    var f := FileName(now, name);
    forall k | 0 <= k < |f| ensures Allowed(f[k]) {
      if k < |ts| { assert f[k] == ts[k]; }
      else if k > |ts| { assert f[k] == san[k - |ts| - 1]; }
      else { assert f[k] == '-'; }
    }
    assert '/' !in f by {
      forall k | 0 <= k < |f| ensures f[k] != '/' { assert Allowed(f[k]); }
    }
    assert '\\' !in f by {
      forall k | 0 <= k < |f| ensures f[k] != '\\' { assert Allowed(f[k]); }
    }
  }

  /** The digits before the first hyphen are the timestamp. */
  lemma FileNameTimestamp(now: nat, name: string)
    ensures FileName(now, name)[|NatToString(now)|] == '-'
    ensures ParseInt(FileName(now, name)) == Some(now)
  {
    var ts := NatToString(now);
    var tail := "-" + Sanitize(name);
    assert FileName(now, name) == ts + tail;
    ParseIntPrefix(ts, tail);
    ParseIntOfNatToString(now);
  }

  /** `parseInt` stops at the first non-digit: digits followed by a hyphen parse as the digits alone. */
  lemma ParseIntPrefix(digits: string, rest: string)
    requires |digits| >= 1 && (forall k :: 0 <= k < |digits| ==> '0' <= digits[k] <= '9')
    requires |rest| >= 1 && rest[0] == '-'
    requires digits[0] == '0' ==> |digits| == 1
    ensures ParseInt(digits + rest) == ParseInt(digits)
  {
    var s := digits + rest;
    assert s[0] == digits[0];
    ParseIntOfDigitStart(s);
    ParseIntOfDigitStart(digits);
    ParseUnsignedPrefix(digits, rest);
  }

  lemma ParseIntOfDigitStart(s: string)
    requires |s| >= 1 && '0' <= s[0] <= '9'
    ensures ParseInt(s) == ParseUnsigned(s)
  {
    assert !IsSpace(s[0]);
    assert TrimStart(s) == s;
  }

  lemma ParseUnsignedPrefix(digits: string, rest: string)
    requires |digits| >= 1 && (forall k :: 0 <= k < |digits| ==> '0' <= digits[k] <= '9')
    requires |rest| >= 1 && rest[0] == '-'
    requires digits[0] == '0' ==> |digits| == 1
    ensures ParseUnsigned(digits + rest) == ParseUnsigned(digits)
  {
    var s := digits + rest;
    assert !(|s| >= 2 && s[0] == '0' && (s[1] == 'x' || s[1] == 'X')) by {
      if |digits| >= 2 { assert s[1] == digits[1]; } else { assert s[1] == rest[0]; }
    }
    assert !(|digits| >= 2 && digits[0] == '0');
    DigitRunAll(digits);
    DigitRunStops(digits, rest);
    assert s[..|digits|] == digits;
    assert digits[..|digits|] == digits;
  }

  lemma DigitRunStops(digits: string, rest: string)
    requires forall k :: 0 <= k < |digits| ==> '0' <= digits[k] <= '9'
    requires |rest| >= 1 && rest[0] == '-'
    ensures DigitRun(digits + rest, 10) == |digits|
  {
    var s := digits + rest;
    assert s[|digits|] == '-';
    assert forall k :: 0 <= k < |digits| ==> s[k] == digits[k];
  }

  /** An uploaded file: its name as the browser sent it. */
  datatype UploadedFile = UploadedFile(name: string)

  /** The answer, and the file name written under the public directory, if any. */
  datatype Upload = NoFileUploaded | Stored(written: string, url: string)

  /** `POST`: the HTTP status is 400 for `NoFileUploaded` and 200 for `Stored`. */
  function Post(file: Option<UploadedFile>, now: nat): (r: Upload)
    ensures r.NoFileUploaded? <==> file.None?
    ensures r.Stored? ==> r.written == FileName(now, file.value.name) && r.url == "/" + r.written
  {
    if file.None? then NoFileUploaded
    else
      var fileName := FileName(now, file.value.name);
      Stored(fileName, "/" + fileName)
  }
}
