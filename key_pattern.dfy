/** The well-formed `num_search` key, `/^j\d+c\d+$/`: once as the
    language it denotes and once as the automaton a regular-expression
    engine runs, with a proof that the two agree. */
module KeyPattern {
  import opened Values

  /** The language of `/^j\d+c\d+$/`: a `j`, one or more digits, a `c`,
      one or more digits, and nothing else. `k` is the position of the `c`. */
  predicate IsKey(s: string)
  {
    exists k :: 2 <= k < |s| - 1 && s[0] == 'j' && s[k] == 'c' && AllDigits(s[1..k]) && AllDigits(s[k + 1..])
  }

  /** States of the matcher for `/^j\d+c\d+$/`. */
  datatype State = Start | AfterJ | InJob | AfterC | InClient | Dead

  function Step(q: State, c: char): State
  {
    match q
    case Start => if c == 'j' then AfterJ else Dead
    case AfterJ => if IsDigit(c) then InJob else Dead
    case InJob => if IsDigit(c) then InJob else if c == 'c' then AfterC else Dead
    case AfterC => if IsDigit(c) then InClient else Dead
    case InClient => if IsDigit(c) then InClient else Dead
    case Dead => Dead
  }

  function Run(q: State, s: string): State
    decreases |s|
  {
    if s == [] then q else Run(Step(q, s[0]), s[1..])
  }

  /** Whether the store's regular-expression match of `/^j\d+c\d+$/`
      succeeds on `s`. */
  predicate Matches(s: string)
  {
    Run(Start, s) == InClient
  }

  lemma {:induction false} RunDead(s: string)
    ensures Run(Dead, s) == Dead
    decreases |s|
  {
    if s != [] {
      RunDead(s[1..]);
    }
  }

  lemma {:induction false} RunInClient(s: string)
    ensures Run(InClient, s) == InClient <==> AllDigits(s)
    decreases |s|
  {
    if s != [] {
      if IsDigit(s[0]) {
        RunInClient(s[1..]);
        assert AllDigits(s) <==> AllDigits(s[1..]) by {
          if AllDigits(s[1..]) {
            forall i | 0 <= i < |s| ensures IsDigit(s[i]) {
              if i > 0 { assert s[i] == s[1..][i - 1]; }
            }
          }
        }
      } else {
        RunDead(s[1..]);
      }
    }
  }

  /** After the `c`: accepted exactly when one or more digits follow. */
  lemma RunAfterC(s: string)
    ensures Run(AfterC, s) == InClient <==> |s| > 0 && AllDigits(s)
  {
    if s != [] {
      if IsDigit(s[0]) {
        RunInClient(s);
      } else {
        RunDead(s[1..]);
      }
    }
  }

  /** `t` splits at `k` into digits, a `c`, and one or more digits. */
  predicate SplitAt(t: string, k: int)
  {
    0 <= k < |t| - 1 && t[k] == 'c' && AllDigits(t[..k]) && AllDigits(t[k + 1..])
  }

  /** Inside the job digits: accepted exactly when the rest splits. */
  lemma {:induction false} RunInJob(t: string)
    ensures Run(InJob, t) == InClient <==> exists k :: SplitAt(t, k)
    decreases |t|
  {
    if t == [] {
      assert forall k :: !SplitAt(t, k);
    } else if IsDigit(t[0]) {
      RunInJob(t[1..]);
      SplitAfterDigit(t);
    } else if t[0] == 'c' {
      RunAfterC(t[1..]);
      if |t[1..]| > 0 && AllDigits(t[1..]) {
        assert SplitAt(t, 0);
      }
      if exists k :: SplitAt(t, k) {
        var k :| SplitAt(t, k);
        assert k == 0;
      }
    } else {
      RunDead(t[1..]);
    }
  }

  /** A leading digit belongs to the job digits: `t` splits exactly when
      the rest of it does. */
  lemma SplitAfterDigit(t: string)
    requires t != [] && IsDigit(t[0])
    ensures (exists k :: SplitAt(t, k)) <==> exists k :: SplitAt(t[1..], k)
  {
    var u := t[1..];
    if exists k :: SplitAt(u, k) {
      var k :| SplitAt(u, k);
      assert t[..k + 1] == [t[0]] + u[..k];
      assert t[k + 2..] == u[k + 1..];
      assert SplitAt(t, k + 1);
    }
    if exists k :: SplitAt(t, k) {
      var k :| SplitAt(t, k);
      assert k != 0;
      assert u[..k - 1] == t[1..k];
      assert u[k..] == t[k + 1..];
      assert SplitAt(u, k - 1);
    }
  }

  /** A key starts with a `j` followed by a digit. */
  lemma KeyPrefix(s: string)
    requires IsKey(s)
    ensures |s| >= 4 && s[0] == 'j' && IsDigit(s[1])
  {
    var k :| 2 <= k < |s| - 1 && s[0] == 'j' && s[k] == 'c' && AllDigits(s[1..k]) && AllDigits(s[k + 1..]);
    assert s[1..k][0] == s[1];
  }

  /** The matcher rejects a string that does not start with a `j` and a digit. */
  lemma RejectsBadPrefix(s: string)
    requires !(|s| >= 2 && s[0] == 'j' && IsDigit(s[1]))
    ensures !Matches(s)
  {
    if s != [] && s[0] != 'j' {
      RunDead(s[1..]);
    } else if |s| == 1 {
      assert Run(Start, s) == Run(AfterJ, []) == AfterJ;
    } else if s != [] {
      assert s[1..][1..] == s[2..];
      assert Run(Start, s) == Run(AfterJ, s[1..]) == Run(Dead, s[2..]);
      RunDead(s[2..]);
    }
  }

  /** After `j` and a digit, a key is a split of the rest. */
  lemma KeyIffSplit(s: string)
    requires |s| >= 2 && s[0] == 'j' && IsDigit(s[1])
    ensures IsKey(s) <==> exists j :: SplitAt(s[2..], j)
  {
    var t := s[2..];
    if exists j :: SplitAt(t, j) {
      var j :| SplitAt(t, j);
      assert s[1..j + 2] == [s[1]] + t[..j];
      assert s[j + 3..] == t[j + 1..];
      assert 2 <= j + 2 < |s| - 1 && s[j + 2] == 'c' && AllDigits(s[1..j + 2]) && AllDigits(s[j + 3..]);
    }
    if IsKey(s) {
      var k :| 2 <= k < |s| - 1 && s[0] == 'j' && s[k] == 'c' && AllDigits(s[1..k]) && AllDigits(s[k + 1..]);
      assert t[..k - 2] == s[1..k][1..];
      assert t[k - 1..] == s[k + 1..];
      assert SplitAt(t, k - 2);
    }
  }

  /** The matcher accepts exactly the strings of the form `j<digits>c<digits>`. */
  lemma MatchesIffKey(s: string)
    ensures Matches(s) <==> IsKey(s)
  {
    if |s| >= 2 && s[0] == 'j' && IsDigit(s[1]) {
      assert Run(Start, s) == Run(InJob, s[2..]) by {
        assert s[1..][1..] == s[2..];
      }
      RunInJob(s[2..]);
      KeyIffSplit(s);
    } else {
      RejectsBadPrefix(s);
      if IsKey(s) {
        KeyPrefix(s);
      }
    }
  }

  /** A `j`, a digit string, a `c` and a digit string, both non-empty,
      form a well-formed key. */
  lemma KeyOfDigits(a: string, b: string)
    requires |a| > 0 && AllDigits(a) && |b| > 0 && AllDigits(b)
    ensures Matches("j" + a + "c" + b)
  {
    var s := "j" + a + "c" + b;
    var k := |a| + 1;
    assert s[1..k] == a;
    assert s[k + 1..] == b;
    assert s[0] == 'j' && s[k] == 'c';
    MatchesIffKey(s);
  }
}
