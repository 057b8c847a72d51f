/** The name-to-email mapping: the structural checks of `validate_email_mapping_file`
    and the resolution loop of `resolve_emails`. */
module EmailMapping {
  import opened Wrappers
  import Text

  // ---------------------------------------------------------------------------
  // The email pattern `^[a-zA-Z0-9._%+-]+@[a-zA-Z0-9.-]+\.[a-zA-Z]{2,}$`
  // ---------------------------------------------------------------------------

  predicate IsLetter(c: char) {
    ('a' <= c <= 'z') || ('A' <= c <= 'Z')
  }

  predicate IsDigit(c: char) {
    '0' <= c <= '9'
  }

  /** `[a-zA-Z0-9._%+-]`. */
  predicate IsLocalChar(c: char) {
    IsLetter(c) || IsDigit(c) || c == '.' || c == '_' || c == '%' || c == '+' || c == '-'
  }

  /** `[a-zA-Z0-9.-]`. */
  predicate IsDomainChar(c: char) {
    IsLetter(c) || IsDigit(c) || c == '.' || c == '-'
  }

  /** `[a-zA-Z0-9.-]+\.[a-zA-Z]{2,}` over `s[start..]`: domain characters, a dot after
      at least one of them, and at least two letters after that dot to the end. */
  predicate IsDomainFrom(s: string, start: nat) {
    && (forall i :: start <= i < |s| ==> IsDomainChar(s[i]))
    && exists p :: start + 1 <= p && p + 2 < |s| && s[p] == '.' && forall j :: p < j < |s| ==> IsLetter(s[j])
  }

  /** The whole of `s` matches the pattern between `^` and `$`. */
  predicate IsAddress(s: string) {
    exists at :: 1 <= at < |s| && s[at] == '@' && (forall i :: 0 <= i < at ==> IsLocalChar(s[i])) && IsDomainFrom(s, at + 1)
  }

  /** `email_pattern.match(s)`: Python's `$` also matches just before a final newline. */
  predicate MatchesEmailPattern(s: string) {
    IsAddress(s) || (|s| > 0 && s[|s| - 1] == '\n' && IsAddress(s[..|s| - 1]))
  }

  /** The local part has no `@` and the domain none either, so an address has exactly one. */
  lemma AddressHasOneAt(s: string)
    requires IsAddress(s)
    ensures Text.ContainsChar(s, '@')
    ensures forall i, j :: 0 <= i < j < |s| && s[i] == '@' ==> s[j] != '@'
  {
    var at :| 1 <= at < |s| && s[at] == '@' && (forall i :: 0 <= i < at ==> IsLocalChar(s[i])) && IsDomainFrom(s, at + 1);
    forall i, j | 0 <= i < j < |s| && s[i] == '@' ensures s[j] != '@' {
      assert i == at;
    }
  }

  // ---------------------------------------------------------------------------
  // Validation
  // ---------------------------------------------------------------------------

  /** A JSON value under a name: a string, or something else with its type name and
      its `repr`. */
  datatype JsonValue = JString(s: string) | JOther(typeName: string, repr: string)

  /** What `json.loads` produced: an object, as its items in order, or another value.
      Parsed objects have distinct names (`DistinctNames`). */
  datatype Document = Object(entries: seq<(string, JsonValue)>) | NotObject(typeName: string)

  /** The mapping file as `validate_email_mapping_file` sees it before it looks at the
      parsed document: missing, unreadable, blank, not valid JSON, or loaded. Reading
      and parsing are outside the model; each failure carries the message it reports. */
  datatype MappingFile = FileMissing | ReadFailed(reason: string) | Blank | BadJson(message: string) | Loaded(doc: Document)

  /** `(is_valid, error_message, mapping_dict)`; the mapping is its items in order. */
  datatype Validation = Validation(isValid: bool, errorMsg: string, mapping: seq<(string, string)>)

  /** Python's `repr` of a string, without its escaping of quotes and control characters. */
  function Repr(s: string): string {
    "'" + s + "'"
  }

  /** The message one entry adds to `invalid_entries`, if any. */
  function EntryProblem(name: string, email: JsonValue): Option<string> {
    if Text.Strip(name) == "" then Some("Invalid name: " + Repr(name))
    else match email
      case JOther(_, r) => Some("Invalid email for '" + name + "': " + r)
      case JString(s) =>
        if Text.Strip(s) == "" then Some("Invalid email for '" + name + "': " + Repr(s))
        else if !MatchesEmailPattern(s) then Some("Invalid email format for '" + name + "': " + s)
        else None
  }

  function InvalidEntries(entries: seq<(string, JsonValue)>): seq<string> {
    if entries == [] then []
    else
      var last := entries[|entries| - 1];
      InvalidEntries(entries[..|entries| - 1]) + (match EntryProblem(last.0, last.1) case Some(m) => [m] case None => [])
  }

  function TextOf(v: JsonValue): string {
    if v.JString? then v.s else ""
  }

  function AsMapping(entries: seq<(string, JsonValue)>): seq<(string, string)> {
    if entries == [] then []
    else AsMapping(entries[..|entries| - 1]) + [(entries[|entries| - 1].0, TextOf(entries[|entries| - 1].1))]
  }

  /** The checks `validate_email_mapping_file` makes on the parsed document: an
      object, not empty, and every entry valid. */
  function ValidateDocument(doc: Document): Validation {
    match doc
    case NotObject(t) => Validation(false, "Expected JSON object (dict), got " + t, [])
    case Object(entries) =>
      if |entries| == 0 then Validation(false, "Mapping is empty - no name-to-email entries found", [])
      else
        var invalid := InvalidEntries(entries);
        if invalid != [] then Validation(false, "Invalid entries:\n   " + Text.Join(invalid, "\n   "), [])
        else Validation(true, "", AsMapping(entries))
  }

  /** `validate_email_mapping_file`, with its checks on the file itself (existence,
      reading, blank content, JSON syntax) abstracted as `MappingFile`. */
  function ValidateMappingFile(path: string, f: MappingFile): Validation {
    match f
    case FileMissing => Validation(false, "File not found: " + path, [])
    case ReadFailed(reason) => Validation(false, "Cannot read file: " + reason, [])
    case Blank => Validation(false, "File is empty", [])
    case BadJson(message) => Validation(false, message, [])
    case Loaded(doc) => ValidateDocument(doc)
  }

  /** The loop over `mapping.items()`. */
  method CollectInvalidEntries(entries: seq<(string, JsonValue)>) returns (invalid: seq<string>)
    ensures invalid == InvalidEntries(entries)
  {
    invalid := [];
    for i := 0 to |entries|
      invariant invalid == InvalidEntries(entries[..i])
    {
      var (name, email) := entries[i];
      assert entries[..i + 1][..i] == entries[..i];
      if Text.Strip(name) == "" {
        invalid := invalid + ["Invalid name: " + Repr(name)];
      } else if !email.JString? || Text.Strip(email.s) == "" {
        var shown := if email.JString? then Repr(email.s) else email.repr;
        invalid := invalid + ["Invalid email for '" + name + "': " + shown];
      } else if !MatchesEmailPattern(email.s) {
        invalid := invalid + ["Invalid email format for '" + name + "': " + email.s];
      }
    }
    assert entries[..|entries|] == entries;
  }

  method ValidateMapping(doc: Document) returns (v: Validation)
    ensures v == ValidateDocument(doc)
  {
    if !doc.Object? {
      return Validation(false, "Expected JSON object (dict), got " + doc.typeName, []);
    }
    if |doc.entries| == 0 {
      return Validation(false, "Mapping is empty - no name-to-email entries found", []);
    }
    var invalid := CollectInvalidEntries(doc.entries);
    if invalid != [] {
      return Validation(false, "Invalid entries:\n   " + Text.Join(invalid, "\n   "), []);
    }
    return Validation(true, "", AsMapping(doc.entries));
  }

  // ---------------------------------------------------------------------------
  // Properties of the validation
  // ---------------------------------------------------------------------------

  predicate EntryValid(e: (string, JsonValue)) {
    EntryProblem(e.0, e.1).None?
  }

  lemma {:induction false} InvalidEntriesEmptyIff(entries: seq<(string, JsonValue)>)
    ensures InvalidEntries(entries) == [] <==> forall e <- entries :: EntryValid(e)
  {
    if entries != [] {
      var init, last := entries[..|entries| - 1], entries[|entries| - 1];
      InvalidEntriesEmptyIff(init);
      assert entries == init + [last];
      if forall e <- entries :: EntryValid(e) {
        assert last in entries;
        assert forall e <- init :: e in entries;
      } else {
        var e :| e in entries && !EntryValid(e);
        if e != last {
          assert e in init;
        }
      }
    }
  }

  /** A mapping is valid exactly when it is a non-empty object and every entry has a
      non-blank name and a string email that matches the pattern. */
  lemma ValidIff(doc: Document)
    ensures ValidateDocument(doc).isValid <==>
      doc.Object? && |doc.entries| > 0 && forall e <- doc.entries :: EntryValid(e)
    ensures !ValidateDocument(doc).isValid ==> ValidateDocument(doc).mapping == [] && ValidateDocument(doc).errorMsg != ""
  {
    if doc.Object? {
      InvalidEntriesEmptyIff(doc.entries);
    }
  }

  /** What a valid entry is, spelled out. */
  lemma EntryValidMeans(e: (string, JsonValue))
    ensures EntryValid(e) <==>
      Text.Strip(e.0) != "" && e.1.JString? && Text.Strip(e.1.s) != "" && MatchesEmailPattern(e.1.s)
  {
  }

  lemma {:induction false} AsMappingKeeps(entries: seq<(string, JsonValue)>)
    ensures |AsMapping(entries)| == |entries|
    ensures forall i :: 0 <= i < |entries| ==> AsMapping(entries)[i] == (entries[i].0, TextOf(entries[i].1))
  {
    if entries != [] {
      var init := entries[..|entries| - 1];
      AsMappingKeeps(init);
      assert forall i :: 0 <= i < |init| ==> init[i] == entries[i];
    }
  }

  /** A valid mapping is returned as it was read. */
  lemma ValidReturnedUnchanged(doc: Document)
    requires ValidateDocument(doc).isValid
    ensures doc.Object?
    ensures |ValidateDocument(doc).mapping| == |doc.entries|
    ensures forall i :: 0 <= i < |doc.entries| ==>
      doc.entries[i].1 == JString(ValidateDocument(doc).mapping[i].1) && doc.entries[i].0 == ValidateDocument(doc).mapping[i].0
  {
    ValidIff(doc);
    AsMappingKeeps(doc.entries);
    forall i | 0 <= i < |doc.entries| ensures doc.entries[i].1.JString? {
      assert EntryValid(doc.entries[i]);
    }
  }

  // ---------------------------------------------------------------------------
  // Resolution
  // ---------------------------------------------------------------------------

  predicate HasName(mapping: seq<(string, string)>, name: string) {
    exists e <- mapping :: e.0 == name
  }

  /** `email_mapping[name]`: the email of the first entry with that name. */
  function Lookup(mapping: seq<(string, string)>, name: string): string
    requires HasName(mapping, name)
  {
    if mapping[0].0 == name then mapping[0].1 else Lookup(mapping[1..], name)
  }

  /** `list(email_mapping.values())`. */
  function Values(mapping: seq<(string, string)>): (r: seq<string>)
    ensures |r| == |mapping| && forall i :: 0 <= i < |mapping| ==> r[i] == mapping[i].1
  {
    if mapping == [] then [] else [mapping[0].1] + Values(mapping[1..])
  }

  /** What one requested identifier resolves to: itself once stripped if it holds an
      `@`, else the email of that name, else nothing. */
  function ResolveOne(mapping: seq<(string, string)>, identifier: string): Option<string> {
    var id := Text.Strip(identifier);
    if Text.ContainsChar(id, '@') then Some(id)
    else if HasName(mapping, id) then Some(Lookup(mapping, id))
    else None
  }

  /** What one identifier adds to `resolved_emails`. */
  function Contribution(mapping: seq<(string, string)>, identifier: string): seq<string> {
    match ResolveOne(mapping, identifier)
    case Some(e) => [e]
    case None => []
  }

  /** `resolved_emails` after the loop. */
  function Resolved(mapping: seq<(string, string)>, ids: seq<string>): seq<string> {
    if ids == [] then []
    else Resolved(mapping, ids[..|ids| - 1]) + Contribution(mapping, ids[|ids| - 1])
  }

  /** `unknown_names` after the loop. */
  function Unknown(mapping: seq<(string, string)>, ids: seq<string>): seq<string> {
    if ids == [] then []
    else
      Unknown(mapping, ids[..|ids| - 1])
        + (if ResolveOne(mapping, ids[|ids| - 1]).None? then [Text.Strip(ids[|ids| - 1])] else [])
  }

  /** The outcome of `resolve_emails`: the emails, or the exception it raises. */
  datatype Outcome = Emails(emails: seq<string>) | FileNotFoundRaised(message: string) | ValueErrorRaised(message: string)

  /** The error `resolve_emails` evidently means to raise: `FileNotFoundError` when the
      file is missing, `ValueError` for every other problem. */
  function FailureFor(path: string, f: MappingFile, v: Validation): Outcome {
    if f.FileMissing? then FileNotFoundRaised("Email mapping file not found: " + path)
    else ValueErrorRaised("Invalid email mapping file: " + v.errorMsg)
  }

  /** `resolve_emails(assigned_to, mapping_file, fail_on_error)`; `None` and the empty
      list both ask for every email. */
  function ResolutionOf(path: string, f: MappingFile, assignedTo: seq<string>, failOnError: bool): Outcome {
    var v := ValidateMappingFile(path, f);
    if !v.isValid then
      if failOnError then FailureFor(path, f, v) else Emails([])
    else if assignedTo == [] then Emails(Values(v.mapping))
    else Emails(Resolved(v.mapping, assignedTo))
  }

  /** The loop over `assigned_to`. */
  method ResolveIdentifiers(mapping: seq<(string, string)>, ids: seq<string>)
    returns (resolved: seq<string>, unknown: seq<string>)
    ensures resolved == Resolved(mapping, ids)
    ensures unknown == Unknown(mapping, ids)
  {
    resolved, unknown := [], [];
    for i := 0 to |ids|
      invariant resolved == Resolved(mapping, ids[..i])
      invariant unknown == Unknown(mapping, ids[..i])
    {
      assert ids[..i + 1][..i] == ids[..i];
      var identifier := Text.Strip(ids[i]);
      if Text.ContainsChar(identifier, '@') {
        resolved := resolved + [identifier];
      } else if HasName(mapping, identifier) {
        var email := Lookup(mapping, identifier);
        resolved := resolved + [email];
      } else {
        unknown := unknown + [identifier];
      }
    }
    assert ids[..|ids|] == ids;
  }

  method ResolveEmails(path: string, f: MappingFile, assignedTo: seq<string>, failOnError: bool)
    returns (out: Outcome)
    ensures out == ResolutionOf(path, f, assignedTo, failOnError)
  {
    var v: Validation;
    if f.Loaded? {
      v := ValidateMapping(f.doc);
    } else {
      v := ValidateMappingFile(path, f);
    }
    if !v.isValid {
      if failOnError {
        if f.FileMissing? {
          return FileNotFoundRaised("Email mapping file not found: " + path);
        }
        return ValueErrorRaised("Invalid email mapping file: " + v.errorMsg);
      }
      return Emails([]);
    }
    if assignedTo == [] {
      return Emails(Values(v.mapping));
    }
    var resolved, unknown := ResolveIdentifiers(v.mapping, assignedTo);
    return Emails(resolved);
  }

  // ---------------------------------------------------------------------------
  // Properties of the resolution
  // ---------------------------------------------------------------------------

  /** A name in the mapping has an email there. */
  lemma {:induction false} LookupFound(mapping: seq<(string, string)>, name: string)
    requires HasName(mapping, name)
    ensures (name, Lookup(mapping, name)) in mapping
  {
    if mapping[0].0 != name {
      assert exists e <- mapping[1..] :: e.0 == name by {
        var e :| e in mapping && e.0 == name;
        var i :| 0 <= i < |mapping| && mapping[i] == e;
        assert i > 0 && mapping[1..][i - 1] == e;
      }
      LookupFound(mapping[1..], name);
    }
  }

  /** No two entries share a name, as in a dictionary. */
  predicate DistinctNames(mapping: seq<(string, string)>) {
    forall i, j :: 0 <= i < j < |mapping| ==> mapping[i].0 != mapping[j].0
  }

  /** With distinct names, `email_mapping[name]` is the email of the one entry named so. */
  lemma {:induction false} LookupUnique(mapping: seq<(string, string)>, i: int)
    requires DistinctNames(mapping) && 0 <= i < |mapping|
    ensures HasName(mapping, mapping[i].0)
    ensures Lookup(mapping, mapping[i].0) == mapping[i].1
  {
    assert mapping[i] in mapping;
    if i > 0 {
      assert mapping[0].0 != mapping[i].0;
      assert mapping[1..][i - 1] == mapping[i];
      LookupUnique(mapping[1..], i - 1);
    }
  }

  /** Each identifier is either resolved or reported unknown, never both. */
  lemma {:induction false} EveryIdentifierAccounted(mapping: seq<(string, string)>, ids: seq<string>)
    ensures |Resolved(mapping, ids)| + |Unknown(mapping, ids)| == |ids|
    ensures |Resolved(mapping, ids)| <= |ids|
  {
    if ids != [] {
      EveryIdentifierAccounted(mapping, ids[..|ids| - 1]);
    }
  }

  /** Resolution goes identifier by identifier: the output follows the input order. */
  lemma {:induction false} ResolvedAppend(mapping: seq<(string, string)>, a: seq<string>, b: seq<string>)
    ensures Resolved(mapping, a + b) == Resolved(mapping, a) + Resolved(mapping, b)
  {
    if b == [] {
      assert a + b == a;
    } else {
      var init, last := b[..|b| - 1], b[|b| - 1];
      var tail := Contribution(mapping, last);
      ResolvedAppend(mapping, a, init);
      assert (a + b)[..|a + b| - 1] == a + init && (a + b)[|a + b| - 1] == last;
      assert Resolved(mapping, a + b) == Resolved(mapping, a + init) + tail;
    }
  }

  /** An identifier holding `@` is kept verbatim once stripped, whatever the mapping
      says; a known name gives its email; an unknown name gives nothing. */
  lemma ResolveSingle(mapping: seq<(string, string)>, identifier: string)
    ensures var id := Text.Strip(identifier);
      && (Text.ContainsChar(id, '@') ==> Resolved(mapping, [identifier]) == [id])
      && (!Text.ContainsChar(id, '@') && HasName(mapping, id) ==> Resolved(mapping, [identifier]) == [Lookup(mapping, id)])
      && (!Text.ContainsChar(id, '@') && !HasName(mapping, id) ==> Resolved(mapping, [identifier]) == [])
  {
    assert [identifier][..0] == [];
  }

  /** Every resolved email is a requested address or the email of a requested name. */
  lemma {:induction false} ResolvedFromRequests(mapping: seq<(string, string)>, ids: seq<string>)
    ensures forall e <- Resolved(mapping, ids) :: exists id <- ids ::
      var s := Text.Strip(id);
      (Text.ContainsChar(s, '@') && e == s) || (!Text.ContainsChar(s, '@') && HasName(mapping, s) && (s, e) in mapping)
  {
    if ids != [] {
      var init, last := ids[..|ids| - 1], ids[|ids| - 1];
      ResolvedFromRequests(mapping, init);
      var s := Text.Strip(last);
      if !Text.ContainsChar(s, '@') && HasName(mapping, s) {
        LookupFound(mapping, s);
      }
      assert forall id <- init :: id in ids;
      assert last in ids;
    }
  }

  /** With no identifiers requested, a valid mapping gives all of its emails. */
  lemma AllEmailsByDefault(path: string, f: MappingFile, failOnError: bool)
    requires ValidateMappingFile(path, f).isValid
    ensures ResolutionOf(path, f, [], failOnError) == Emails(Values(ValidateMappingFile(path, f).mapping))
  {
  }

  /** An invalid mapping gives no emails when failures are not raised. */
  lemma InvalidWithoutFailure(path: string, f: MappingFile, assignedTo: seq<string>)
    requires !ValidateMappingFile(path, f).isValid
    ensures ResolutionOf(path, f, assignedTo, false) == Emails([])
  {
  }

  /** Only a missing file raises `FileNotFoundError`; any other invalid mapping raises
      `ValueError` carrying the validation message. */
  lemma FailureKinds(path: string, f: MappingFile, assignedTo: seq<string>)
    requires !ValidateMappingFile(path, f).isValid
    ensures ResolutionOf(path, f, assignedTo, true).FileNotFoundRaised? <==> f.FileMissing?
    ensures !f.FileMissing? ==>
      ResolutionOf(path, f, assignedTo, true) == ValueErrorRaised("Invalid email mapping file: " + ValidateMappingFile(path, f).errorMsg)
  {
  }

  // ---------------------------------------------------------------------------
  // The failure classification as written
  // ---------------------------------------------------------------------------

  /** `"not found" in error_msg.lower()`, the test the source uses to pick the error. */
  predicate SaysNotFound(msg: string) {
    Text.Contains(Text.Lower(msg), "not found")
  }

  /** The error the source raises, chosen from the message text. */
  function FailureAsWritten(path: string, v: Validation): Outcome {
    if SaysNotFound(v.errorMsg) then FileNotFoundRaised("Email mapping file not found: " + path)
    else ValueErrorRaised("Invalid email mapping file: " + v.errorMsg)
  }

  /** `resolve_emails` exactly as written: `ResolutionOf` with the error picked from the
      message text. */
  function ResolutionAsWritten(path: string, f: MappingFile, assignedTo: seq<string>, failOnError: bool): Outcome {
    var v := ValidateMappingFile(path, f);
    if !v.isValid then
      if failOnError then FailureAsWritten(path, v) else Emails([])
    else if assignedTo == [] then Emails(Values(v.mapping))
    else Emails(Resolved(v.mapping, assignedTo))
  }

  /** The source and the intended classification differ only on an invalid mapping whose
      message says "not found" although the file is there: a missing file's message
      always says it. */
  lemma AsWrittenAgreesOtherwise(path: string, f: MappingFile, assignedTo: seq<string>, failOnError: bool)
    requires var v := ValidateMappingFile(path, f); !v.isValid && SaysNotFound(v.errorMsg) ==> f.FileMissing?
    ensures ResolutionAsWritten(path, f, assignedTo, failOnError) == ResolutionOf(path, f, assignedTo, failOnError)
  {
    if f.FileMissing? {
      MissingFileSaysNotFound(path);
    }
  }

  /** `sub` occurs in any text built around it. */
  lemma ContainsMiddle(pre: string, sub: string, post: string)
    ensures Text.Contains(pre + sub + post, sub)
  {
    var s := pre + sub + post;
    assert s[|pre|..|pre| + |sub|] == sub;
    assert Text.OccursAt(s, sub, |pre|);
  }

  /** Lowering a text leaves a lowercase part of it in place. */
  lemma ContainsLowered(pre: string, sub: string, post: string)
    requires forall k :: 0 <= k < |sub| ==> Text.LowerChar(sub[k]) == sub[k]
    ensures Text.Contains(Text.Lower(pre + sub + post), sub)
  {
    var s := pre + sub + post;
    var l := Text.Lower(s);
    assert l[|pre|..|pre| + |sub|] == sub by {
      Text.LowerAt(s);
      forall k | 0 <= k < |sub| ensures l[|pre| + k] == sub[k] {
        assert s[|pre| + k] == sub[k];
      }
    }
    assert Text.OccursAt(l, sub, |pre|);
  }

  /** A message with "not found" in it, capitalised or not, says "not found". */
  lemma SaysNotFoundAround(pre: string, post: string)
    ensures SaysNotFound(pre + "not found" + post)
  {
    ContainsLowered(pre, "not found", post);
  }

  /** A missing file is classified alike by the message and by the cause. */
  lemma MissingFileSaysNotFound(path: string)
    ensures SaysNotFound(ValidateMappingFile(path, FileMissing).errorMsg)
  {
    assert "File not found: " + path == "File " + "not found" + (": " + path);
    SaysNotFoundAround("File ", ": " + path);
  }

  /** A mapping whose only entry is named "not found" and has a malformed email. */
  const NotFoundEntry: Document := Object([("not found", JString("x"))])

  /** The counterexample: a file that exists and parses, but whose invalid entry names
      "not found", is reported with `FileNotFoundError`. */
  lemma MisclassifiedEntryError(path: string)
    ensures !ValidateMappingFile(path, Loaded(NotFoundEntry)).isValid
    ensures FailureAsWritten(path, ValidateMappingFile(path, Loaded(NotFoundEntry))).FileNotFoundRaised?
    ensures FailureFor(path, Loaded(NotFoundEntry), ValidateMappingFile(path, Loaded(NotFoundEntry))).ValueErrorRaised?
    ensures ResolutionAsWritten(path, Loaded(NotFoundEntry), [], true).FileNotFoundRaised?
    ensures ResolutionOf(path, Loaded(NotFoundEntry), [], true).ValueErrorRaised?
  {
    Text.StripShape("x");
    assert !Text.IsSpace("x"[0]);
    Text.StripShape("not found");
    assert !Text.IsSpace("not found"[0]);
    assert !MatchesEmailPattern("x");
    var problem := "Invalid email format for '" + "not found" + "': " + "x";
    assert EntryProblem("not found", JString("x")) == Some(problem);
    assert InvalidEntries([("not found", JString("x"))]) == [problem] by {
      assert [("not found", JString("x"))][..0] == [];
    }
    var head := "Invalid entries:\n   ";
    assert Text.Join([problem], "\n   ") == problem;
    assert ValidateMappingFile(path, Loaded(NotFoundEntry)).errorMsg == head + problem;
    assert head + problem == (head + "Invalid email format for '") + "not found" + ("': " + "x");
    SaysNotFoundAround(head + "Invalid email format for '", "': " + "x");
  }
}
