/** The CORS origin list: one comma-separated setting, checked field by field. */
module Origins {
  import opened Prelude
  import Text

  const HTTPS: string := "https://"
  const HTTP: string := "http://"

  datatype OriginError =
    | NoOrigins                // nothing but separators and blanks
    | Wildcard
    | NotHttp
    | PathQueryOrFragment      // or an empty authority
    | NotAHeaderValue

  /** What follows the scheme, if the scheme is one of the two. */
  function Authority(origin: string): Option<string> {
    if HTTPS <= origin then Some(origin[|HTTPS|..])
    else if HTTP <= origin then Some(origin[|HTTP|..])
    else None
  }

  /** The checks of one turn of the loop; `None` is success. */
  function OriginFault(origin: string): Option<OriginError> {
    if origin == "*" then Some(Wildcard)
    else
      match Authority(origin)
      case None => Some(NotHttp)
      case Some(authority) =>
        if authority == "" || '/' in authority || '?' in authority || '#' in authority then Some(PathQueryOrFragment)
        else if !Text.HeaderValueAccepts(origin) then Some(NotAHeaderValue)
        else None
  }

  predicate PlainAuthority(authority: string) {
    authority != "" && '/' !in authority && '?' !in authority && '#' !in authority
  }

  /** A scheme and a non-empty authority with nothing after it, as a header value (section 6.2 of RFC 6454). */
  ghost predicate IsOrigin(origin: string) {
    && (forall c | c in origin :: c == '\t' || (' ' <= c && c as int != 127))
    && exists authority :: PlainAuthority(authority) && (origin == HTTPS + authority || origin == HTTP + authority)
  }

  lemma FaultIffNotOrigin(origin: string)
    ensures OriginFault(origin).None? <==> IsOrigin(origin)
  {
    if OriginFault(origin).None? {
      var authority := Authority(origin).value;
      assert PlainAuthority(authority);
      assert origin == HTTPS + authority || origin == HTTP + authority;
    }
    if IsOrigin(origin) {
      var authority :| PlainAuthority(authority) && (origin == HTTPS + authority || origin == HTTP + authority);
      assert origin[0] == 'h' && HTTP[4] == ':' && HTTPS[4] == 's';
      if origin == HTTP + authority {
        assert origin[4] == ':';
        assert origin[|HTTP|..] == authority;
      } else {
        assert origin[|HTTPS|..] == authority;
      }
    }
  }

  function NonBlank(fields: seq<string>): seq<string> {
    if fields == [] then []
    else
      var rest := NonBlank(fields[..|fields| - 1]);
      var field := Text.Trim(fields[|fields| - 1]);
      if field == "" then rest else rest + [field]
  }

  /** The candidates: split at commas, trimmed, blanks dropped, in order. */
  function Candidates(raw: string): seq<string> {
    NonBlank(Text.Split(raw, ','))
  }

  lemma {:induction false} NonBlankFields(fields: seq<string>, c: char)
    requires forall f | f in fields :: c !in f
    ensures forall f | f in NonBlank(fields) :: f != "" && Text.Trimmed(f) && c !in f
    decreases |fields|
  {
    if fields != [] {
      var init, last := fields[..|fields| - 1], fields[|fields| - 1];
      forall f | f in init ensures c !in f {
        assert f in fields;
      }
      NonBlankFields(init, c);
      assert last in fields;
      Text.TrimShape(last);
    }
  }

  lemma {:induction false} NonBlankTrimmed(fields: seq<string>)
    requires forall f | f in fields :: f != "" && Text.Trimmed(f)
    ensures NonBlank(fields) == fields
    decreases |fields|
  {
    if fields != [] {
      var init, last := fields[..|fields| - 1], fields[|fields| - 1];
      forall f | f in init ensures f != "" && Text.Trimmed(f) {
        assert f in fields;
      }
      NonBlankTrimmed(init);
      assert last in fields;
      Text.TrimIdempotent(last);
      assert fields == init + [last];
    }
  }

  lemma {:induction false} NonBlankConcat(a: seq<string>, b: seq<string>)
    ensures NonBlank(a + b) == NonBlank(a) + NonBlank(b)
    decreases |b|
  {
    hide Text.Trim;
    if b == [] {
      assert a + b == a;
    } else {
      var init, all := b[..|b| - 1], a + b;
      NonBlankConcat(a, init);
      assert all[..|all| - 1] == a + init && all[|all| - 1] == b[|b| - 1];
    }
  }

  lemma NonBlankOne(field: string)
    ensures NonBlank([field]) == if Text.Trim(field) == "" then [] else [Text.Trim(field)]
  {
    hide Text.Trim;
    assert [field][..0] == [];
  }

  /** A comma divides the candidates. */
  lemma CandidatesConcat(a: string, b: string)
    ensures Candidates(a + "," + b) == Candidates(a) + Candidates(b)
  {
    hide Text.Split, NonBlank;
    Text.SplitAppend(a, b, ',');
    NonBlankConcat(Text.Split(a, ','), Text.Split(b, ','));
    assert a + "," + b == a + [','] + b;
  }

  /** A field without its surrounding whitespace is one candidate; whitespace alone is none. */
  lemma CandidateOfField(pre: string, field: string, post: string)
    requires ',' !in field && Text.Blank(pre) && Text.Blank(post)
    requires field != "" ==> Text.Trimmed(field)
    ensures Candidates(pre + field + post) == if field == "" then [] else [field]
  {
    hide Text.Split, Text.Trim, Text.Trimmed, Text.Blank, NonBlank;
    var padded := pre + field + post;
    NoCommaInBlank(pre);
    NoCommaInBlank(post);
    Text.SplitPlain(padded, ',');
    NonBlankOne(padded);
    if field == "" {
      BlankTogether(pre, post);
      assert padded == pre + post;
      Text.TrimBlank(padded);
    } else {
      Text.TrimPadded(pre, field, post);
    }
  }

  lemma NoCommaInBlank(s: string)
    requires Text.Blank(s)
    ensures ',' !in s
  {
    assert !Text.IsWhitespace(',');
  }

  lemma BlankTogether(a: string, b: string)
    requires Text.Blank(a) && Text.Blank(b)
    ensures Text.Blank(a + b)
  {
  }

  /** A list written with a space after the comma. */
  lemma SpacedList(a: string, b: string)
    requires a != "" && Text.Trimmed(a) && ',' !in a && b != "" && Text.Trimmed(b) && ',' !in b
    ensures Candidates(a + ", " + b) == [a, b]
  {
    hide Text.Trimmed, Candidates;
    CandidatesConcat(a, " " + b);
    assert a + "," + (" " + b) == a + ", " + b;
    assert Text.Blank(" ") && Text.Blank("");
    CandidateOfField("", a, "");
    CandidateOfField(" ", b, "");
    assert "" + a + "" == a && " " + b + "" == " " + b;
  }

  lemma CandidatesShape(raw: string)
    ensures forall f | f in Candidates(raw) :: f != "" && Text.Trimmed(f) && ',' !in f
  {
    Text.SplitFieldsHaveNoSeparator(raw, ',');
    NonBlankFields(Text.Split(raw, ','), ',');
  }

  /** The list as a value: all candidates, or the first fault. */
  function Parsed(raw: string): Result<seq<string>, OriginError> {
    var candidates := Candidates(raw);
    if candidates == [] then Err(NoOrigins) else Checked(candidates)
  }

  function Checked(candidates: seq<string>): Result<seq<string>, OriginError>
    decreases |candidates|
  {
    if candidates == [] then Ok([])
    else
      match Checked(candidates[..|candidates| - 1])
      case Err(e) => Err(e)
      case Ok(origins) =>
        match OriginFault(candidates[|candidates| - 1])
        case Some(e) => Err(e)
        case None => Ok(origins + [candidates[|candidates| - 1]])
  }

  /** The list is accepted exactly when every candidate is an origin, and then it is the candidates. */
  lemma {:induction false} CheckedIff(candidates: seq<string>)
    ensures Checked(candidates).Ok? <==> forall o | o in candidates :: IsOrigin(o)
    ensures Checked(candidates).Ok? ==> Checked(candidates).value == candidates
    decreases |candidates|
  {
    if candidates != [] {
      var init, last := candidates[..|candidates| - 1], candidates[|candidates| - 1];
      CheckedIff(init);
      FaultIffNotOrigin(last);
      assert candidates == init + [last];
    }
  }

  /** The error names the first candidate at fault. */
  lemma {:induction false} CheckedError(candidates: seq<string>)
    requires Checked(candidates).Err?
    ensures exists k | 0 <= k < |candidates| ::
              && OriginFault(candidates[k]) == Some(Checked(candidates).error)
              && forall j | 0 <= j < k :: IsOrigin(candidates[j])
    decreases |candidates|
  {
    var init, last := candidates[..|candidates| - 1], candidates[|candidates| - 1];
    CheckedIff(init);
    if Checked(init).Err? {
      CheckedError(init);
      var k :| 0 <= k < |init| && OriginFault(init[k]) == Some(Checked(init).error)
               && forall j | 0 <= j < k :: IsOrigin(init[j]);
      assert candidates[k] == init[k];
      assert forall j | 0 <= j < k :: candidates[j] == init[j];
    } else {
      assert forall j | 0 <= j < |init| :: candidates[j] in init;
    }
  }

  /** `parse_allowed_origins`. */
  method ParseAllowedOrigins(raw: string) returns (result: Result<seq<string>, OriginError>)
    ensures result == Parsed(raw)
    ensures result.Ok? <==> Candidates(raw) != [] && forall o | o in Candidates(raw) :: IsOrigin(o)
    ensures result.Ok? ==> result.value == Candidates(raw)
  {
    CheckedIff(Candidates(raw));
    var candidates := Candidates(raw);
    if candidates == [] {
      return Err(NoOrigins);
    }
    var origins: seq<string> := [];
    for k := 0 to |candidates|
      invariant Checked(candidates[..k]) == Ok(origins)
    {
      var origin := candidates[k];
      assert candidates[..k + 1][..k] == candidates[..k];
      if origin == "*" {
        CheckedStops(candidates, k);
        return Err(Wildcard);
      }
      var authority: string;
      if HTTPS <= origin {
        authority := origin[|HTTPS|..];
      } else if HTTP <= origin {
        authority := origin[|HTTP|..];
      } else {
        CheckedStops(candidates, k);
        return Err(NotHttp);
      }
      if authority == "" || '/' in authority || '?' in authority || '#' in authority {
        CheckedStops(candidates, k);
        return Err(PathQueryOrFragment);
      }
      if !Text.HeaderValueAccepts(origin) {
        CheckedStops(candidates, k);
        return Err(NotAHeaderValue);
      }
      origins := origins + [origin];
    }
    assert candidates[..|candidates|] == candidates;
    return Ok(origins);
  }

  /** A fault decides the whole list. */
  lemma CheckedStops(candidates: seq<string>, k: nat)
    requires k < |candidates| && Checked(candidates[..k]).Ok? && OriginFault(candidates[k]).Some?
    ensures Checked(candidates) == Err(OriginFault(candidates[k]).value)
  {
    hide OriginFault;
    var part := candidates[..k + 1];
    assert part[..|part| - 1] == candidates[..k] && part[|part| - 1] == candidates[k];
    assert Checked(part) == Err(OriginFault(candidates[k]).value);
    CheckedPropagates(candidates, k + 1);
  }

  lemma {:induction false} CheckedPropagates(candidates: seq<string>, k: nat)
    requires k <= |candidates| && Checked(candidates[..k]).Err?
    ensures Checked(candidates) == Checked(candidates[..k])
    decreases |candidates|
  {
    if k == |candidates| {
      assert candidates[..k] == candidates;
    } else {
      var init := candidates[..|candidates| - 1];
      assert init[..k] == candidates[..k];
      CheckedPropagates(init, k);
    }
  }

  /** Round trip: joining an accepted list with commas and parsing again gives the same list. */
  lemma OriginsRoundTrip(raw: string)
    requires Parsed(raw).Ok?
    ensures Parsed(raw).value != []
    ensures Parsed(Text.Join(Parsed(raw).value, ',')) == Parsed(raw)
  {
    var origins := Candidates(raw);
    CheckedIff(origins);
    CandidatesShape(raw);
    Text.SplitJoin(origins, ',');
    NonBlankTrimmed(origins);
  }
}
