/** The selection criterion: the query filter the job sends to the store,
    kept as data (a disjunction of field clauses) with the store's meaning
    of each clause, and the candidate predicate it amounts to. */
module Filter {
  import opened Values
  import KeyPattern

  /** The two regular expressions the filter uses. */
  datatype Pattern =
    | Blank   // /^\s*$/
    | Key     // /^j\d+c\d+$/

  predicate PatternMatches(p: Pattern, s: string)
  {
    match p
    case Blank => IsBlank(s)
    case Key => KeyPattern.Matches(s)
  }

  /** One entry of an `$or` list: a condition on one field. */
  datatype Clause =
    | Exists(field: Field, present: bool)        // { f: { $exists: present } }
    | Equals(field: Field, value: Value)         // { f: value }
    | TypeIsNull(field: Field)                   // { f: { $type: "null" } }
    | Regex(field: Field, pattern: Pattern)      // { f: /pattern/ }
    | NotRegex(field: Field, pattern: Pattern)   // { f: { $not: /pattern/ } }

  /** The store's meaning of a clause on a document. Equality with `null`
      also holds of an absent field; a regular expression only matches a
      string, and its negation holds of everything else. */
  predicate ClauseMatches(c: Clause, r: Record)
  {
    var v := r.Get(c.field);
    match c
    case Exists(_, present) => v.Missing? != present
    case Equals(_, w) => if w == Null then v.Null? || v.Missing? else v == w
    case TypeIsNull(_) => v.Null?
    case Regex(_, p) => v.Str? && PatternMatches(p, v.s)
    case NotRegex(_, p) => !(v.Str? && PatternMatches(p, v.s))
  }

  /** The `$or` of a list of clauses. */
  predicate AnyMatches(filter: seq<Clause>, r: Record)
  {
    exists i :: 0 <= i < |filter| && ClauseMatches(filter[i], r)
  }

  /** The filter of the job, clause for clause; the count and the cursor
      both use it. */
  const CandidateFilter: seq<Clause> := [
    Exists(NumSearch, false),
    Equals(NumSearch, Null),
    Equals(NumSearch, Str("")),
    TypeIsNull(NumSearch),
    Regex(NumSearch, Blank),
    NotRegex(NumSearch, Key),
    Exists(JobId, false),
    Equals(JobId, Null),
    Equals(JobId, Str("")),
    Regex(JobId, Blank),
    Exists(ClientCode, false),
    Equals(ClientCode, Null),
    Equals(ClientCode, Str("")),
    Regex(ClientCode, Blank)
  ]

  /** `num_search` is not a well-formed key: absent, not a string, or a
      string not of the form `j<digits>c<digits>`. */
  predicate NumSearchInvalid(v: Value)
  {
    !(v.Str? && KeyPattern.IsKey(v.s))
  }

  /** A source field (`job_id`, `client_code`) is absent, null, or an
      empty or whitespace-only string. */
  predicate SourceInvalid(v: Value)
  {
    v.Missing? || v.Null? || (v.Str? && IsBlank(v.s))
  }

  /** A document the job should repair. */
  predicate IsCandidate(r: Record)
  {
    NumSearchInvalid(r.numSearch) || SourceInvalid(r.jobId) || SourceInvalid(r.clientCode)
  }

  /** A well-formed key is neither empty nor blank. */
  lemma KeyIsNotBlank(s: string)
    requires KeyPattern.IsKey(s)
    ensures s != [] && !IsBlank(s)
  {
    KeyPattern.KeyPrefix(s);
    assert !IsSpace(s[0]);
  }

  /** The store selects exactly the candidates: the first five
      `num_search` clauses add nothing to the `$not` clause, and each
      source field is selected when absent, null, empty or blank. */
  lemma CandidateFilterSelectsCandidates(r: Record)
    ensures AnyMatches(CandidateFilter, r) <==> IsCandidate(r)
  {
    var f := CandidateFilter;
    if r.numSearch.Str? {
      KeyPattern.MatchesIffKey(r.numSearch.s);
      if KeyPattern.IsKey(r.numSearch.s) {
        KeyIsNotBlank(r.numSearch.s);
      }
    }
    if IsCandidate(r) {
      if NumSearchInvalid(r.numSearch) {
        assert ClauseMatches(f[5], r);
      } else if SourceInvalid(r.jobId) {
        assert ClauseMatches(f[7], r) || ClauseMatches(f[9], r);
      } else {
        assert ClauseMatches(f[11], r) || ClauseMatches(f[13], r);
      }
    }
    if AnyMatches(f, r) {
      var i :| 0 <= i < |f| && ClauseMatches(f[i], r);
      assert i < 6 ==> NumSearchInvalid(r.numSearch);
    }
  }
}
