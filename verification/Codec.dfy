/** The capability list on a queue message (comma join and split), and the choice among candidate workers. */
module Codec {
  import opened Rows

  // ---- strings.Join and strings.Split ----

  function Join(names: seq<string>): string {
    if names == [] then ""
    else if |names| == 1 then names[0]
    else names[0] + "," + Join(names[1..])
  }

  function Split(s: string): (parts: seq<string>)
    ensures |parts| >= 1
  {
    if s == "" then [""]
    else
      var rest := Split(s[1..]);
      if s[0] == ',' then [""] + rest else [[s[0]] + rest[0]] + rest[1..]
  }

  /** What the scheduling loop makes of the field: an empty one means no capabilities. */
  function Decode(raw: string): seq<Capability> { if raw == "" then [] else Split(raw) }

  predicate CommaFree(names: seq<string>) { forall c | c in names :: ',' !in c }

  predicate Encodable(names: seq<string>) { CommaFree(names) && names != [""] }

  lemma {:induction false} SplitPrefix(p: string, t: string)
    requires ',' !in p
    ensures Split(p) == [p] && Split(p + "," + t) == [p] + Split(t)
  {
    if p == "" {
      assert (p + "," + t)[1..] == t;
    } else {
      SplitPrefix(p[1..], t);
      assert (p + "," + t)[1..] == p[1..] + "," + t;
      assert [p[0]] + p[1..] == p;
    }
  }

  lemma {:induction false} SplitJoin(names: seq<string>)
    requires names != [] && CommaFree(names)
    ensures Split(Join(names)) == names
  {
    SplitPrefix(names[0], "");
    if |names| > 1 {
      SplitPrefix(names[0], Join(names[1..]));
      SplitJoin(names[1..]);
      assert [names[0]] + names[1..] == names;
    }
  }

  function Commas(s: string): nat { if s == "" then 0 else (if s[0] == ',' then 1 else 0) + Commas(s[1..]) }

  lemma {:induction false} SplitCounts(s: string)
    ensures |Split(s)| == Commas(s) + 1
  {
    if s != "" { SplitCounts(s[1..]); }
  }

  lemma {:induction false} CommasConcat(s: string, t: string)
    ensures Commas(s + t) == Commas(s) + Commas(t)
  {
    if s == "" {
      assert s + t == t;
    } else {
      CommasConcat(s[1..], t);
      assert (s + t)[1..] == s[1..] + t;
    }
  }

  lemma {:induction false} CommasPositive(s: string)
    requires ',' in s
    ensures Commas(s) > 0
  {
    if s[0] != ',' { CommasPositive(s[1..]); }
  }

  /** Each comma inside a name makes one part too many. */
  lemma {:induction false} JoinCounts(names: seq<string>)
    requires names != []
    ensures Commas(Join(names)) >= |names| - 1
    ensures !CommaFree(names) ==> Commas(Join(names)) > |names| - 1
  {
    if |names| == 1 {
      if ',' in names[0] { CommasPositive(names[0]); }
    } else {
      JoinCounts(names[1..]);
      CommasConcat(names[0] + ",", Join(names[1..]));
      CommasConcat(names[0], ",");
      assert Commas(",") == 1;
      if ',' in names[0] {
        CommasPositive(names[0]);
      } else if !CommaFree(names) {
        var c :| c in names && ',' in c;
        assert c in names[1..];
      }
    }
  }

  /** The list survives the queue exactly if no name holds a comma and it is not the one empty name. */
  lemma RoundTripIff(names: seq<string>)
    ensures Decode(Join(names)) == names <==> Encodable(names)
  {
    if names != [] && names != [""] {
      if CommaFree(names) {
        SplitJoin(names);
      } else {
        JoinCounts(names);
        SplitCounts(Join(names));
      }
    }
  }

  lemma {:induction false} PartsAreCommaFree(s: string)
    ensures CommaFree(Split(s))
  {
    if s != "" {
      PartsAreCommaFree(s[1..]);
      var rest := Split(s[1..]);
      assert forall c | c in Split(s) :: c in rest[1..] || c == "" || c == rest[0] || c == [s[0]] + rest[0];
    }
  }

  /**
   * The candidate filter works on the decoded list. It lets through only workers with every capability the job
   * requires, for every worker, exactly if the list is encodable.
   */
  lemma FilterSoundIff(names: seq<string>)
    ensures (forall have: seq<Capability> :: Covers(have, Decode(Join(names))) ==> Covers(have, names)) <==> Encodable(names)
  {
    RoundTripIff(names);
    PartsAreCommaFree(Join(names));
    var decoded := Decode(Join(names));
    if !Encodable(names) {
      assert Covers(decoded, decoded);
      assert !Covers(decoded, names) by {
        if names == [""] {
          assert "" in names && decoded == [];
        } else {
          var c :| c in names && ',' in c;
          assert c !in decoded;
        }
      }
    }
  }

  // ---- SelectLeastLoaded ----

  datatype Candidate = Candidate(id: WorkerId, epoch: int, caps: seq<Capability>, avail: int, slots: int)

  function FreeFraction(c: Candidate): real
    requires c.slots > 0
  {
    c.avail as real / c.slots as real
  }

  /** The first candidate with the largest free fraction, among those with slots at all. */
  predicate IsBest(cs: seq<Candidate>, best: Option<nat>) {
    match best
    case None => forall i | 0 <= i < |cs| :: cs[i].slots <= 0
    case Some(k) =>
      k < |cs| && cs[k].slots > 0
      && forall i | 0 <= i < |cs| && cs[i].slots > 0 ::
           FreeFraction(cs[i]) <= FreeFraction(cs[k]) && (i < k ==> FreeFraction(cs[i]) < FreeFraction(cs[k]))
  }

  method SelectLeastLoaded(cs: seq<Candidate>) returns (best: Option<nat>)
    ensures IsBest(cs, best)
  {
    best := None;
    var bestFraction := 0.0;
    for i := 0 to |cs|
      invariant IsBest(cs[..i], best)
      invariant best.Some? ==> best.value < i && cs[best.value].slots > 0 && bestFraction == FreeFraction(cs[best.value])
    {
      if cs[i].slots > 0 {
        var fraction := cs[i].avail as real / cs[i].slots as real;
        if best.None? || fraction > bestFraction {
          best, bestFraction := Some(i), fraction;
        }
      }
    }
    assert cs[..|cs|] == cs;
  }
}
