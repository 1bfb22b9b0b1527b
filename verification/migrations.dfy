/**
 Model of migrations.ts: migration records and the MigrationsBuilder that appends
 them. The builder checks nothing: any schema, in any order, any number of times.
 */
module Migrations {
  import opened Functions

  /** "up" migrates to the next schema, "down" reverses it. */
  datatype Direction = Up | Down

  /**
   One migration step. For `Up`, `schema` is the version reached after `func` runs;
   for `Down`, the version before it runs.
   */
  datatype Migration = Migration(direction: Direction, schema: int, func: FnRef)

  /** The builder's public `migrations` array. */
  datatype MigrationsBuilder = MigrationsBuilder(migrations: seq<Migration>)

  /** A freshly constructed builder. */
  const NewMigrationsBuilder := MigrationsBuilder([])

  /** `n` is the integer nearest to `x`, a tie going to the larger one. */
  ghost predicate RoundsTo(x: real, n: int)
  {
    x - 0.5 < n as real <= x + 0.5
  }

  /**
   `Math.round` on a finite number: the nearest integer, halves rounded toward
   positive infinity (so 2.5 gives 3 and -2.5 gives -2).
   */
  function Round(x: real): (n: int)
    ensures RoundsTo(x, n)
  {
    var k := x.Floor;
    if x - k as real < 0.5 then k else k + 1
  }

  /** An integer schema is stored unchanged. */
  lemma RoundKeepsIntegers(k: int)
    ensures Round(k as real) == k
  {
  }

  /** `MigrationsBuilder.upTo`: append an "up" step to the rounded schema. */
  function UpTo(b: MigrationsBuilder, schema: real, func: FnRef): (b': MigrationsBuilder)
    ensures |b'.migrations| == |b.migrations| + 1
    ensures b'.migrations[..|b.migrations|] == b.migrations
    ensures b'.migrations[|b.migrations|].direction == Up
    ensures b'.migrations[|b.migrations|].func == func
    ensures RoundsTo(schema, b'.migrations[|b.migrations|].schema)
  {
    b.(migrations := b.migrations + [Migration(Up, Round(schema), func)])
  }

  /** `MigrationsBuilder.downFrom`: append a "down" step from the rounded schema. */
  function DownFrom(b: MigrationsBuilder, schema: real, func: FnRef): (b': MigrationsBuilder)
    ensures |b'.migrations| == |b.migrations| + 1
    ensures b'.migrations[..|b.migrations|] == b.migrations
    ensures b'.migrations[|b.migrations|].direction == Down
    ensures b'.migrations[|b.migrations|].func == func
    ensures RoundsTo(schema, b'.migrations[|b.migrations|].schema)
  {
    b.(migrations := b.migrations + [Migration(Down, Round(schema), func)])
  }

  /** One builder call, with its arguments. */
  datatype MigrationCall = UpToStep(schema: real, func: FnRef) | DownFromStep(schema: real, func: FnRef)

  /** A sequence of builder calls, in call order. */
  function ApplyAll(b: MigrationsBuilder, steps: seq<MigrationCall>): MigrationsBuilder
    decreases |steps|
  {
    if |steps| == 0 then b
    else
      var s := steps[0];
      var b1 := if s.UpToStep? then UpTo(b, s.schema, s.func) else DownFrom(b, s.schema, s.func);
      ApplyAll(b1, steps[1..])
  }

  /** The record a builder call must append: its direction, its rounded schema and its function. */
  ghost predicate Records(m: Migration, s: MigrationCall)
  {
    && (m.direction == Up <==> s.UpToStep?)
    && RoundsTo(s.schema, m.schema)
    && m.func == s.func
  }

  /**
   Migration order is call order and no call is ever refused: every call appends
   exactly one record, and earlier records are never touched.
   */
  lemma {:induction false} ApplyAllInCallOrder(b: MigrationsBuilder, steps: seq<MigrationCall>)
    ensures |ApplyAll(b, steps).migrations| == |b.migrations| + |steps|
    ensures ApplyAll(b, steps).migrations[..|b.migrations|] == b.migrations
    ensures forall i :: 0 <= i < |steps| ==> Records(ApplyAll(b, steps).migrations[|b.migrations| + i], steps[i])
    decreases |steps|
  {
    if |steps| > 0 {
      var s := steps[0];
      var b1 := if s.UpToStep? then UpTo(b, s.schema, s.func) else DownFrom(b, s.schema, s.func);
      ApplyAllInCallOrder(b1, steps[1..]);
      var r := ApplyAll(b, steps);
      assert r == ApplyAll(b1, steps[1..]);
      assert r.migrations[..|b1.migrations|] == b1.migrations;
      assert r.migrations[..|b.migrations|] == b1.migrations[..|b.migrations|];
      forall i | 0 <= i < |steps|
        ensures Records(r.migrations[|b.migrations| + i], steps[i])
      {
        if i == 0 {
          assert r.migrations[|b.migrations|] == b1.migrations[|b.migrations|];
        } else {
          assert steps[1..][i - 1] == steps[i];
          assert r.migrations[|b.migrations| + i] == r.migrations[|b1.migrations| + (i - 1)];
        }
      }
    }
  }

  /** Fractional schemas are rounded, not truncated or refused: 3.7 becomes 4, 2.5 becomes 3, -2.5 becomes -2. */
  lemma RoundExamples()
    ensures Round(3.7) == 4 && Round(2.5) == 3 && Round(-2.5) == -2 && Round(3.0) == 3
  {
  }

  /** Nothing checks continuity or duplicates: `upTo(3)` twice is accepted and stored twice. */
  lemma DuplicateUpToAccepted(f: FnRef)
    ensures UpTo(UpTo(NewMigrationsBuilder, 3.0, f), 3.0, f).migrations == [Migration(Up, 3, f), Migration(Up, 3, f)]
  {
  }
}
