/**
 * The meaning of the `import_query` MERGE/SET script of create_kg.py as a
 * transition on graph state.  Every node is identified by its key, so the
 * graph is a set of keys per label (a map to the attributes for the two
 * labels that carry attributes) and a set of key pairs per relationship type.
 */
module KnowledgeGraph {

  import opened Records
  import opened Batching

  /** The identity of a Flight: number and fleet type together. */
  datatype FlightKey = FlightKey(number: string, fleetType: string)

  /** The attributes SET on a Passenger. */
  datatype PassengerInfo = PassengerInfo(loyaltyLevel: string, generation: string)

  /** The attributes SET on a Journey. */
  datatype JourneyInfo = JourneyInfo(
    foodScore: int, arrivalDelay: int, flownMiles: int, legs: int, passengerClass: string)

  /**
   * Graph state: Airport station codes, Flight keys, Passenger record
   * locators and Journey feedback IDs with their attributes, and the
   * DEPARTS_FROM, ARRIVES_AT, TOOK and ON relationships as key pairs.
   */
  datatype Graph = Graph(
    airports: set<string>,
    flights: set<FlightKey>,
    passengers: map<string, PassengerInfo>,
    journeys: map<string, JourneyInfo>,
    departsFrom: set<(FlightKey, string)>,
    arrivesAt: set<(FlightKey, string)>,
    took: set<(string, string)>,
    on: set<(string, FlightKey)>)

  /** The cleared database. */
  const EmptyGraph := Graph({}, {}, map[], map[], {}, {}, {}, {})

  /** Every relationship joins two nodes of the graph. */
  predicate WellFormed(g: Graph)
  {
    && (forall e :: e in g.departsFrom ==> e.0 in g.flights && e.1 in g.airports)
    && (forall e :: e in g.arrivesAt ==> e.0 in g.flights && e.1 in g.airports)
    && (forall e :: e in g.took ==> e.0 in g.passengers && e.1 in g.journeys)
    && (forall e :: e in g.on ==> e.0 in g.journeys && e.1 in g.flights)
  }

  /** Cypher's `toInteger` on a number: truncation toward zero. */
  function Truncate(x: real): (r: int)
    ensures 0.0 <= x ==> r as real <= x < r as real + 1.0
    ensures x < 0.0 ==> r as real - 1.0 < x <= r as real
  {
    if 0.0 <= x then x.Floor else -((-x).Floor)
  }

  function FlightOf(row: Record): FlightKey
  {
    FlightKey(row.flightNumber, row.fleetType)
  }

  function PassengerOf(row: Record): PassengerInfo
  {
    PassengerInfo(row.loyaltyLevel, row.generation)
  }

  function JourneyOf(row: Record): JourneyInfo
  {
    JourneyInfo(Truncate(row.foodScore), Truncate(row.arrivalDelay), Truncate(row.flownMiles),
                Truncate(row.legs), row.passengerClass)
  }

  /** One iteration of `UNWIND $batch AS row`: the script's clauses in order. */
  function UpsertRow(g: Graph, row: Record): (h: Graph)
    ensures row.origin in h.airports && row.destination in h.airports && FlightOf(row) in h.flights
    ensures row.recordLocator in h.passengers && row.feedbackId in h.journeys
    ensures Grows(g, h)
    ensures WellFormed(g) ==> WellFormed(h)
  {
    var f := FlightOf(row);
    Graph(
      airports := g.airports + {row.origin} + {row.destination},
      flights := g.flights + {f},
      passengers := g.passengers[row.recordLocator := PassengerOf(row)],
      journeys := g.journeys[row.feedbackId := JourneyOf(row)],
      departsFrom := g.departsFrom + {(f, row.origin)},
      arrivesAt := g.arrivesAt + {(f, row.destination)},
      took := g.took + {(row.recordLocator, row.feedbackId)},
      on := g.on + {(row.feedbackId, f)})
  }

  /** The flight clauses of the script. */
  function FlightPart(g: Graph, row: Record): Graph
  {
    var f := FlightOf(row);
    g.(airports := g.airports + {row.origin} + {row.destination},
       flights := g.flights + {f},
       departsFrom := g.departsFrom + {(f, row.origin)},
       arrivesAt := g.arrivesAt + {(f, row.destination)})
  }

  /** The passenger and journey clauses of the script. */
  function JourneyPart(g: Graph, row: Record): Graph
  {
    g.(passengers := g.passengers[row.recordLocator := PassengerOf(row)],
       journeys := g.journeys[row.feedbackId := JourneyOf(row)],
       took := g.took + {(row.recordLocator, row.feedbackId)},
       on := g.on + {(row.feedbackId, FlightOf(row))})
  }

  /** The script's clauses split in two groups that touch disjoint parts of the graph. */
  lemma UpsertRowInTwoParts(g: Graph, row: Record)
    ensures UpsertRow(g, row) == JourneyPart(FlightPart(g, row), row)
  {
  }

  /** No node and no relationship of `g` is missing from `h`. */
  predicate Grows(g: Graph, h: Graph)
  {
    && g.airports <= h.airports && g.flights <= h.flights
    && g.passengers.Keys <= h.passengers.Keys && g.journeys.Keys <= h.journeys.Keys
    && g.departsFrom <= h.departsFrom && g.arrivesAt <= h.arrivesAt
    && g.took <= h.took && g.on <= h.on
  }

  /** The rows applied one after another, first row first. */
  function UpsertAll(g: Graph, rows: seq<Record>): (h: Graph)
    ensures Grows(g, h)
  {
    if rows == [] then g else UpsertRow(UpsertAll(g, rows[..|rows| - 1]), rows[|rows| - 1])
  }

  /** The batches run one after another, first batch first. */
  function ApplyBatches(g: Graph, batches: seq<seq<Record>>): Graph
    decreases batches
  {
    if batches == [] then g else ApplyBatches(UpsertAll(g, batches[0]), batches[1..])
  }

  // ---------------------------------------------------------------------
  // Folding rows

  /** Applying one more row is one more `UpsertRow`. */
  lemma UpsertAllSnoc(g: Graph, rows: seq<Record>, row: Record)
    ensures UpsertAll(g, rows + [row]) == UpsertRow(UpsertAll(g, rows), row)
  {
    assert (rows + [row])[..|rows|] == rows;
  }

  /** Applying `a` then `b` is applying `a + b`. */
  lemma {:induction false} UpsertAllAppend(g: Graph, a: seq<Record>, b: seq<Record>)
    ensures UpsertAll(g, a + b) == UpsertAll(UpsertAll(g, a), b)
  {
    if b == [] {
      assert a + b == a;
    } else {
      var init, last := b[..|b| - 1], b[|b| - 1];
      assert (a + b)[..|a + b| - 1] == a + init;
      assert (a + b)[|a + b| - 1] == last;
      calc {
        UpsertAll(g, a + b);
        UpsertRow(UpsertAll(g, a + init), last);
      == { UpsertAllAppend(g, a, init); }
        UpsertRow(UpsertAll(UpsertAll(g, a), init), last);
        UpsertAll(UpsertAll(g, a), b);
      }
    }
  }

  /** Running the batches one by one is applying their concatenation. */
  lemma {:induction false} ApplyBatchesFlatten(g: Graph, batches: seq<seq<Record>>)
    ensures ApplyBatches(g, batches) == UpsertAll(g, Flatten(batches))
    decreases batches
  {
    if batches != [] {
      ApplyBatchesFlatten(UpsertAll(g, batches[0]), batches[1..]);
      UpsertAllAppend(g, batches[0], Flatten(batches[1..]));
    }
  }

  /**
   * Batch-size invariance: whatever the batch size, the final graph is the
   * one that applying the rows one at a time gives.
   */
  lemma BatchSizeInvariance(g: Graph, rows: seq<Record>, n: nat, m: nat)
    requires n > 0 && m > 0
    ensures ApplyBatches(g, Chunks(rows, n)) == UpsertAll(g, rows)
    ensures ApplyBatches(g, Chunks(rows, n)) == ApplyBatches(g, Chunks(rows, m))
  {
    ChunksFlatten(rows, n);
    ChunksFlatten(rows, m);
    ApplyBatchesFlatten(g, Chunks(rows, n));
    ApplyBatchesFlatten(g, Chunks(rows, m));
  }

  // ---------------------------------------------------------------------
  // Nodes

  /** The Airport nodes are the old ones and every origin and destination code seen. */
  lemma {:induction false} AirportsSeen(g: Graph, rows: seq<Record>)
    ensures forall c :: c in UpsertAll(g, rows).airports <==>
      c in g.airports || exists i :: 0 <= i < |rows| && (rows[i].origin == c || rows[i].destination == c)
  {
    if rows != [] {
      var init := rows[..|rows| - 1];
      AirportsSeen(g, init);
      assert forall i :: 0 <= i < |init| ==> init[i] == rows[i];
    }
  }

  /** The Flight nodes are the old ones and every (number, fleet type) pair seen. */
  lemma {:induction false} FlightsSeen(g: Graph, rows: seq<Record>)
    ensures forall f :: f in UpsertAll(g, rows).flights <==>
      f in g.flights || exists i :: 0 <= i < |rows| && FlightOf(rows[i]) == f
  {
    if rows != [] {
      var init := rows[..|rows| - 1];
      FlightsSeen(g, init);
      assert forall i :: 0 <= i < |init| ==> init[i] == rows[i];
    }
  }

  /** The Passenger nodes are the old ones and every record locator seen. */
  lemma {:induction false} PassengersSeen(g: Graph, rows: seq<Record>)
    ensures forall p :: p in UpsertAll(g, rows).passengers <==>
      p in g.passengers || exists i :: 0 <= i < |rows| && rows[i].recordLocator == p
  {
    if rows != [] {
      var init := rows[..|rows| - 1];
      PassengersSeen(g, init);
      assert forall i :: 0 <= i < |init| ==> init[i] == rows[i];
    }
  }

  /** The Journey nodes are the old ones and every feedback ID seen. */
  lemma {:induction false} JourneysSeen(g: Graph, rows: seq<Record>)
    ensures forall j :: j in UpsertAll(g, rows).journeys <==>
      j in g.journeys || exists i :: 0 <= i < |rows| && rows[i].feedbackId == j
  {
    if rows != [] {
      var init := rows[..|rows| - 1];
      JourneysSeen(g, init);
      assert forall i :: 0 <= i < |init| ==> init[i] == rows[i];
    }
  }

  /** DEPARTS_FROM and ARRIVES_AT hold exactly the pairs some row names, besides those already there. */
  lemma {:induction false} FlightRelationshipsSeen(g: Graph, rows: seq<Record>)
    ensures forall e :: e in UpsertAll(g, rows).departsFrom <==>
      e in g.departsFrom || exists i :: 0 <= i < |rows| && e == (FlightOf(rows[i]), rows[i].origin)
    ensures forall e :: e in UpsertAll(g, rows).arrivesAt <==>
      e in g.arrivesAt || exists i :: 0 <= i < |rows| && e == (FlightOf(rows[i]), rows[i].destination)
  {
    if rows != [] {
      var init := rows[..|rows| - 1];
      FlightRelationshipsSeen(g, init);
      assert forall i :: 0 <= i < |init| ==> init[i] == rows[i];
    }
  }

  /** TOOK and ON hold exactly the pairs some row names, besides those already there. */
  lemma {:induction false} JourneyRelationshipsSeen(g: Graph, rows: seq<Record>)
    ensures forall e :: e in UpsertAll(g, rows).took <==>
      e in g.took || exists i :: 0 <= i < |rows| && e == (rows[i].recordLocator, rows[i].feedbackId)
    ensures forall e :: e in UpsertAll(g, rows).on <==>
      e in g.on || exists i :: 0 <= i < |rows| && e == (rows[i].feedbackId, FlightOf(rows[i]))
  {
    if rows != [] {
      var init := rows[..|rows| - 1];
      JourneyRelationshipsSeen(g, init);
      assert forall i :: 0 <= i < |init| ==> init[i] == rows[i];
    }
  }

  /** Upserting keeps every relationship between two existing nodes. */
  lemma {:induction false} UpsertKeepsWellFormed(g: Graph, rows: seq<Record>)
    requires WellFormed(g)
    ensures WellFormed(UpsertAll(g, rows))
  {
    if rows != [] {
      UpsertKeepsWellFormed(g, rows[..|rows| - 1]);
    }
  }

  // ---------------------------------------------------------------------
  // Attributes: SET is unconditional, so the last row wins

  /** A Passenger's attributes are those of the last row with its record locator. */
  lemma {:induction false} PassengerLastWrite(g: Graph, rows: seq<Record>, i: nat)
    requires i < |rows|
    requires forall j :: i < j < |rows| ==> rows[j].recordLocator != rows[i].recordLocator
    ensures rows[i].recordLocator in UpsertAll(g, rows).passengers
    ensures UpsertAll(g, rows).passengers[rows[i].recordLocator] == PassengerOf(rows[i])
  {
    var init := rows[..|rows| - 1];
    if i < |init| {
      PassengerLastWrite(g, init, i);
    }
  }

  /** A Journey's attributes are those of the last row with its feedback ID. */
  lemma {:induction false} JourneyLastWrite(g: Graph, rows: seq<Record>, i: nat)
    requires i < |rows|
    requires forall j :: i < j < |rows| ==> rows[j].feedbackId != rows[i].feedbackId
    ensures rows[i].feedbackId in UpsertAll(g, rows).journeys
    ensures UpsertAll(g, rows).journeys[rows[i].feedbackId] == JourneyOf(rows[i])
  {
    var init := rows[..|rows| - 1];
    if i < |init| {
      JourneyLastWrite(g, init, i);
    }
  }

  /** A Passenger or Journey no row names keeps its attributes. */
  lemma {:induction false} UntouchedAttributes(g: Graph, rows: seq<Record>, p: string, j: string)
    requires forall i :: 0 <= i < |rows| ==> rows[i].recordLocator != p && rows[i].feedbackId != j
    ensures p in g.passengers ==> p in UpsertAll(g, rows).passengers && UpsertAll(g, rows).passengers[p] == g.passengers[p]
    ensures j in g.journeys ==> j in UpsertAll(g, rows).journeys && UpsertAll(g, rows).journeys[j] == g.journeys[j]
  {
    if rows != [] {
      UntouchedAttributes(g, rows[..|rows| - 1], p, j);
    }
  }

  // ---------------------------------------------------------------------
  // Idempotence

  /** `h` laid over `g`: the union of nodes and relationships, `h`'s attributes winning. */
  function Overlay(g: Graph, h: Graph): Graph
  {
    Graph(g.airports + h.airports, g.flights + h.flights,
          g.passengers + h.passengers, g.journeys + h.journeys,
          g.departsFrom + h.departsFrom, g.arrivesAt + h.arrivesAt,
          g.took + h.took, g.on + h.on)
  }

  /** The graph one row alone makes. */
  function RowGraph(row: Record): Graph
  {
    UpsertRow(EmptyGraph, row)
  }

  lemma UpsertRowIsOverlay(g: Graph, row: Record)
    ensures UpsertRow(g, row) == Overlay(g, RowGraph(row))
  {
    assert g.passengers[row.recordLocator := PassengerOf(row)]
        == g.passengers + map[row.recordLocator := PassengerOf(row)];
    assert g.journeys[row.feedbackId := JourneyOf(row)]
        == g.journeys + map[row.feedbackId := JourneyOf(row)];
  }

  lemma OverlayAssociative(a: Graph, b: Graph, c: Graph)
    ensures Overlay(Overlay(a, b), c) == Overlay(a, Overlay(b, c))
  {
    MapUnionAssociative(a.passengers, b.passengers, c.passengers);
    MapUnionAssociative(a.journeys, b.journeys, c.journeys);
    SetUnionAssociative(a.airports, b.airports, c.airports);
    SetUnionAssociative(a.flights, b.flights, c.flights);
    SetUnionAssociative(a.departsFrom, b.departsFrom, c.departsFrom);
    SetUnionAssociative(a.arrivesAt, b.arrivesAt, c.arrivesAt);
    SetUnionAssociative(a.took, b.took, c.took);
    SetUnionAssociative(a.on, b.on, c.on);
  }

  lemma SetUnionAssociative<T>(a: set<T>, b: set<T>, c: set<T>)
    ensures (a + b) + c == a + (b + c)
  {
  }

  lemma MapUnionAssociative<K, V>(a: map<K, V>, b: map<K, V>, c: map<K, V>)
    ensures (a + b) + c == a + (b + c)
  {
  }

  /** Applying rows to any graph lays the graph those rows make on an empty store over it. */
  lemma {:induction false} UpsertAllIsOverlay(g: Graph, rows: seq<Record>)
    ensures UpsertAll(g, rows) == Overlay(g, UpsertAll(EmptyGraph, rows))
  {
    if rows == [] {
      assert g.passengers + map[] == g.passengers;
      assert g.journeys + map[] == g.journeys;
    } else {
      var init, last := rows[..|rows| - 1], rows[|rows| - 1];
      var s := UpsertAll(EmptyGraph, init);
      UpsertAllIsOverlay(g, init);
      UpsertRowIsOverlay(UpsertAll(g, init), last);
      UpsertRowIsOverlay(s, last);
      OverlayAssociative(g, s, RowGraph(last));
    }
  }

  /** A graph laid over itself is itself. */
  lemma OverlaySelf(s: Graph)
    ensures Overlay(s, s) == s
  {
    assert s.passengers + s.passengers == s.passengers;
    assert s.journeys + s.journeys == s.journeys;
  }

  /** Loading the same rows a second time changes nothing. */
  lemma UpsertIdempotent(g: Graph, rows: seq<Record>)
    ensures UpsertAll(UpsertAll(g, rows), rows) == UpsertAll(g, rows)
  {
    var s := UpsertAll(EmptyGraph, rows);
    var u := UpsertAll(g, rows);
    calc {
      UpsertAll(u, rows);
    == { UpsertAllIsOverlay(u, rows); }
      Overlay(u, s);
    == { UpsertAllIsOverlay(g, rows); }
      Overlay(Overlay(g, s), s);
    == { OverlayAssociative(g, s, s); }
      Overlay(g, Overlay(s, s));
    == { OverlaySelf(s); }
      Overlay(g, s);
    == { UpsertAllIsOverlay(g, rows); }
      u;
    }
  }

  // ---------------------------------------------------------------------
  // Scenarios

  /** Two rows are applied as two `UpsertRow` steps. */
  lemma TwoRows(r1: Record, r2: Record)
    ensures UpsertAll(EmptyGraph, [r1, r2]) == UpsertRow(UpsertRow(EmptyGraph, r1), r2)
  {
    assert [r1, r2][..1] == [r1] && [r1][..0] == [];
    assert UpsertAll(EmptyGraph, [r1]) == UpsertRow(UpsertAll(EmptyGraph, []), r1);
    assert UpsertAll(EmptyGraph, [r1, r2]) == UpsertRow(UpsertAll(EmptyGraph, [r1]), r2);
  }

  /** Two rows with one flight number but two fleet types give two Flight nodes. */
  lemma FleetTypeSeparatesFlights(r1: Record, r2: Record)
    requires r1.flightNumber == r2.flightNumber && r1.fleetType != r2.fleetType
    ensures UpsertAll(EmptyGraph, [r1, r2]).flights == {FlightOf(r1), FlightOf(r2)}
    ensures |UpsertAll(EmptyGraph, [r1, r2]).flights| == 2
  {
    var f1, f2 := FlightOf(r1), FlightOf(r2);
    TwoRows(r1, r2);
    calc {
      UpsertAll(EmptyGraph, [r1, r2]).flights;
      UpsertRow(UpsertRow(EmptyGraph, r1), r2).flights;
      UpsertRow(EmptyGraph, r1).flights + {f2};
      ({f1} + {f2});
    }
    assert f1 != f2;
    assert {f1} + {f2} == {f1, f2};
  }

  /**
   * One passenger on two journeys on two flights: one Passenger, two
   * Journeys, two TOOK relationships, two Flights each with one ON.
   */
  lemma OnePassengerTwoJourneys(r1: Record, r2: Record)
    requires r1.recordLocator == r2.recordLocator == "AB12CD"
    requires r1.feedbackId == "F1" && r2.feedbackId == "F2"
    requires FlightOf(r1) != FlightOf(r2)
    ensures UpsertAll(EmptyGraph, [r1, r2]).passengers.Keys == {"AB12CD"}
    ensures UpsertAll(EmptyGraph, [r1, r2]).journeys.Keys == {"F1", "F2"}
    ensures UpsertAll(EmptyGraph, [r1, r2]).took == {("AB12CD", "F1"), ("AB12CD", "F2")}
    ensures UpsertAll(EmptyGraph, [r1, r2]).flights == {FlightOf(r1), FlightOf(r2)}
    ensures UpsertAll(EmptyGraph, [r1, r2]).on == {("F1", FlightOf(r1)), ("F2", FlightOf(r2))}
  {
    TwoRows(r1, r2);
  }

  // ---------------------------------------------------------------------
  // The store

  /**
   * The graph store the driver writes to: the graph state, the number of
   * sessions opened, and the batches written with `session.run`, in order.
   */
  class GraphStore {
    var airports: set<string>
    var flights: set<FlightKey>
    var passengers: map<string, PassengerInfo>
    var journeys: map<string, JourneyInfo>
    var departsFrom: set<(FlightKey, string)>
    var arrivesAt: set<(FlightKey, string)>
    var took: set<(string, string)>
    var on: set<(string, FlightKey)>
    var sessions: nat
    var writes: seq<seq<Record>>

    /** The graph the store holds. */
    function State(): Graph
      reads this
    {
      Graph(airports, flights, passengers, journeys, departsFrom, arrivesAt, took, on)
    }

    /** A cleared store. */
    constructor ()
      ensures State() == EmptyGraph && sessions == 0 && writes == []
    {
      airports, flights, passengers, journeys := {}, {}, map[], map[];
      departsFrom, arrivesAt, took, on := {}, {}, {}, {};
      sessions, writes := 0, [];
    }

    /** `driver.session()`. */
    method OpenSession()
      modifies this
      ensures State() == old(State()) && writes == old(writes)
      ensures sessions == old(sessions) + 1
    {
      sessions := sessions + 1;
    }

    /** The script on one row: MERGE the nodes and relationships, SET the attributes. */
    method MergeRow(row: Record)
      modifies this
      ensures State() == UpsertRow(old(State()), row)
      ensures sessions == old(sessions) && writes == old(writes)
    {
      MergeFlight(row);
      MergeJourney(row);
      UpsertRowInTwoParts(old(State()), row);
    }

    /** The first clauses: MERGE both airports, the flight, DEPARTS_FROM and ARRIVES_AT. */
    method MergeFlight(row: Record)
      modifies this
      ensures State() == FlightPart(old(State()), row)
      ensures sessions == old(sessions) && writes == old(writes)
    {
      var f := FlightKey(row.flightNumber, row.fleetType);
      airports := airports + {row.origin};
      airports := airports + {row.destination};
      flights := flights + {f};
      departsFrom := departsFrom + {(f, row.origin)};
      arrivesAt := arrivesAt + {(f, row.destination)};
    }

    /** The remaining clauses: MERGE and SET the passenger and the journey, MERGE TOOK and ON. */
    method MergeJourney(row: Record)
      modifies this
      ensures State() == JourneyPart(old(State()), row)
      ensures sessions == old(sessions) && writes == old(writes)
    {
      var f := FlightKey(row.flightNumber, row.fleetType);
      passengers := passengers[row.recordLocator := PassengerInfo(row.loyaltyLevel, row.generation)];
      journeys := journeys[row.feedbackId := JourneyOf(row)];
      took := took + {(row.recordLocator, row.feedbackId)};
      on := on + {(row.feedbackId, f)};
    }

    /** `session.run(import_query, batch=batch)`: the script over `UNWIND $batch`, rows in order. */
    method RunImport(batch: seq<Record>)
      modifies this
      ensures State() == UpsertAll(old(State()), batch)
      ensures WellFormed(old(State())) ==> WellFormed(State())
      ensures sessions == old(sessions) && writes == old(writes) + [batch]
    {
      for k := 0 to |batch|
        invariant State() == UpsertAll(old(State()), batch[..k])
        invariant sessions == old(sessions) && writes == old(writes)
      {
        assert batch[..k + 1] == batch[..k] + [batch[k]];
        UpsertAllSnoc(old(State()), batch[..k], batch[k]);
        MergeRow(batch[k]);
      }
      assert batch[..|batch|] == batch;
      if WellFormed(old(State())) {
        UpsertKeepsWellFormed(old(State()), batch);
      }
      writes := writes + [batch];
    }
  }
}
