/** Systems that settle: what changes only while it comes closer to rest stands still in the end. */
module Settling {

  // ---------- Distances ----------

  function Trues(wrote: seq<bool>): nat {
    if wrote == [] then 0 else Trues(wrote[..|wrote| - 1]) + (if wrote[|wrote| - 1] then 1 else 0)
  }

  /** Each write uses up distance. */
  ghost predicate Spends(distances: seq<nat>, wrote: seq<bool>) {
    && |distances| == |wrote| + 1
    && forall t :: 0 <= t < |wrote| ==> if wrote[t] then distances[t + 1] < distances[t] else distances[t + 1] == distances[t]
  }

  lemma {:induction false} WritesAreBounded(distances: seq<nat>, wrote: seq<bool>)
    requires Spends(distances, wrote)
    ensures Trues(wrote) + distances[|wrote|] <= distances[0]
  {
    if wrote != [] {
      var n := |wrote| - 1;
      WritesAreBounded(distances[..n + 1], wrote[..n]);
    }
  }

  lemma {:induction false} BusyFromTheStart(distances: seq<nat>, wrote: seq<bool>, t: nat)
    requires Spends(distances, wrote) && t < |wrote| && wrote[t]
    requires forall u, v :: 0 <= u < v < |wrote| && wrote[v] ==> wrote[u]
    ensures t + distances[t] <= distances[0] && t < distances[0]
  {
    assert distances[t + 1] < distances[t];
    if t > 0 {
      assert wrote[t - 1];
      BusyFromTheStart(distances, wrote, t - 1);
    }
  }

  /** A step that writes nothing leaves the state alone, and whether a step writes is a matter of the state. */
  ghost predicate Restful<W>(states: seq<W>, wrote: seq<bool>) {
    && |states| == |wrote| + 1
    && (forall t :: 0 <= t < |wrote| && !wrote[t] ==> states[t + 1] == states[t])
    && (forall t, u :: 0 <= t < |wrote| && 0 <= u < |wrote| && states[u] == states[t] && !wrote[t] ==> !wrote[u])
  }

  lemma {:induction false} RestsForever<W>(states: seq<W>, wrote: seq<bool>, t: nat, u: nat)
    requires Restful(states, wrote) && t <= u < |wrote| && !wrote[t]
    ensures states[u] == states[t] && !wrote[u]
    decreases u - t
  {
    if t < u {
      RestsForever(states, wrote, t, u - 1);
      assert states[u - 1 + 1] == states[u - 1];
    }
  }

  /** Writes come first and use up distance, so they end in time; from then on nothing changes. */
  lemma SettlesInTime<W>(states: seq<W>, distances: seq<nat>, wrote: seq<bool>, bound: nat)
    requires Restful(states, wrote) && Spends(distances, wrote) && distances[0] <= bound
    ensures forall t :: bound <= t < |wrote| ==> !wrote[t] && states[t + 1] == states[t]
  {
    forall t | bound <= t < |wrote| ensures !wrote[t] && states[t + 1] == states[t] {
      if wrote[t] {
        forall u, v | 0 <= u < v < |wrote| && wrote[v] ensures wrote[u] {
          if !wrote[u] {
            RestsForever(states, wrote, u, v);
          }
        }
        BusyFromTheStart(distances, wrote, t);
      }
    }
  }

  // ---------- Stretches ----------

  /** The states stand still from number `s` to number `t`. */
  ghost predicate Still<W>(ws: seq<W>, s: nat, t: nat) {
    s <= t < |ws| && forall u :: s <= u <= t ==> ws[u] == ws[s]
  }

  /** From state `s` to state `t` nothing changes, or there is less of something at the end. */
  ghost predicate SpendsOver<W>(f: W -> nat, ws: seq<W>, s: nat, t: nat) {
    s <= t < |ws| && (Still(ws, s, t) || f(ws[t]) < f(ws[s]))
  }

  /** Step `t` changes nothing, or there is less of something after it. */
  ghost predicate SpendsAt<W>(f: W -> nat, ws: seq<W>, t: nat) {
    t + 1 < |ws| && (ws[t + 1] == ws[t] || f(ws[t + 1]) < f(ws[t]))
  }

  lemma {:induction false} StepsSpend<W>(f: W -> nat, ws: seq<W>, s: nat, t: nat)
    requires s <= t < |ws| && forall u: nat :: s <= u < t ==> SpendsAt(f, ws, u)
    ensures SpendsOver(f, ws, s, t)
    decreases t - s
  {
    if s < t {
      StepsSpend(f, ws, s, t - 1);
      assert SpendsAt(f, ws, t - 1) && ws[t - 1 + 1] == ws[t];
    }
  }

  /** What changes only boundedly often stands still in one of sufficiently many stretches. */
  lemma {:induction false} SomeStretchIsStill<W>(f: W -> nat, ws: seq<W>, marks: seq<nat>) returns (r: nat)
    requires |marks| > 0 && marks[0] < |ws| && |marks| - 1 > f(ws[marks[0]])
    requires forall q: nat :: q + 1 < |marks| ==> SpendsOver(f, ws, marks[q], marks[q + 1])
    ensures r + 1 < |marks| && Still(ws, marks[r], marks[r + 1])
    decreases |marks|
  {
    assert SpendsOver(f, ws, marks[0], marks[0 + 1]);
    if Still(ws, marks[0], marks[1]) {
      r := 0;
    } else {
      var rest := marks[1..];
      forall q: nat | q + 1 < |rest| ensures SpendsOver(f, ws, rest[q], rest[q + 1]) {
        assert SpendsOver(f, ws, marks[q + 1], marks[q + 1 + 1]);
      }
      r := SomeStretchIsStill(f, ws, rest);
      r := r + 1;
    }
  }

  lemma {:induction false} StandsStill<W>(ws: seq<W>, s: nat, t: nat)
    requires s <= t < |ws| && forall u: nat :: s <= u < t && ws[u] == ws[s] ==> ws[u + 1] == ws[u]
    ensures ws[t] == ws[s]
    decreases t - s
  {
    if s < t {
      StandsStill(ws, s, t - 1);
      assert ws[t - 1 + 1] == ws[t];
    }
  }

  ghost function Changes<W>(ws: seq<W>): seq<bool>
    requires |ws| > 0
  {
    seq(|ws| - 1, t requires 0 <= t < |ws| - 1 => ws[t + 1] != ws[t])
  }

  ghost function Along<W>(f: W -> nat, ws: seq<W>): seq<nat> {
    seq(|ws|, t requires 0 <= t < |ws| => f(ws[t]))
  }

  /** If one of two equal states stays as it is, so does the other. */
  ghost predicate RestAlike<W>(ws: seq<W>, t: nat, u: nat) {
    t + 1 < |ws| && u + 1 < |ws| && (ws[u] == ws[t] && ws[t + 1] == ws[t] ==> ws[u + 1] == ws[u])
  }

  /** What spends until it rests stands still in the end. */
  lemma SpendsAndRests<W>(f: W -> nat, ws: seq<W>, bound: nat, t: nat)
    requires |ws| > 0 && f(ws[0]) <= bound <= t && t + 1 < |ws|
    requires forall u: nat :: u + 1 < |ws| ==> SpendsAt(f, ws, u)
    requires forall u: nat, v: nat :: u + 1 < |ws| && v + 1 < |ws| ==> RestAlike(ws, u, v)
    ensures ws[t + 1] == ws[t]
  {
    forall u: nat | u + 1 < |ws| ensures ws[u + 1] == ws[u] || f(ws[u + 1]) < f(ws[u]) {
      assert SpendsAt(f, ws, u);
    }
    assert Spends(Along(f, ws), Changes(ws));
    forall u: nat, v: nat | u + 1 < |ws| && v + 1 < |ws| && ws[v] == ws[u] && ws[u + 1] == ws[u] ensures ws[v + 1] == ws[v] {
      assert RestAlike(ws, u, v);
    }
    assert Restful(ws, Changes(ws));
    SettlesInTime(ws, Along(f, ws), Changes(ws), bound);
    assert !Changes(ws)[t];
  }
}
