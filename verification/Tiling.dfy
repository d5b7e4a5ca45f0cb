/** Applying a pattern again and again, each time where the last match ended, until the text is
    used up: when that succeeds, and that it can succeed in only one way. */
module Tiling {
  import opened AttemptResults

  /** `first` matches a tile at the start of a text, and `source` is a tile's own text. */
  datatype Pattern<!T> = Pattern(first: string -> Option<T>, source: T -> string, proper: T -> bool)

  datatype Outcome<T> = Tiled(tiles: seq<T>) | Stuck(position: nat)

  /** Whatever matches is a proper tile, not empty, and stands at the start. */
  ghost predicate Sound<T(!new)>(p: Pattern<T>) {
    forall t: string :: p.first(t).Some? ==>
      p.proper(p.first(t).value) && p.source(p.first(t).value) != "" && p.source(p.first(t).value) <= t
  }

  /** A text that can follow a tile without being taken for a part of it. */
  ghost predicate Follows<T(!new)>(p: Pattern<T>, rest: string) {
    forall x: T :: p.proper(x) ==> p.first(p.source(x) + rest) == Some(x)
  }

  ghost predicate Proper<T(!new)>(p: Pattern<T>, tiles: seq<T>) {
    forall i :: 0 <= i < |tiles| ==> p.proper(tiles[i])
  }

  function Sources<T>(p: Pattern<T>, tiles: seq<T>): string {
    if tiles == [] then "" else p.source(tiles[0]) + Sources(p, tiles[1..])
  }

  ghost predicate IsTiled<T(!new)>(p: Pattern<T>, text: string) {
    exists tiles :: Proper(p, tiles) && text == Sources(p, tiles)
  }

  function Then<T>(x: T, rest: Outcome<T>): Outcome<T> {
    if rest.Tiled? then Tiled([x] + rest.tiles) else rest
  }

  ghost function Tiles<T(!new)>(p: Pattern<T>, path: string, pos: nat): Outcome<T>
    requires Sound(p) && pos <= |path|
    decreases |path| - pos
  {
    if pos == |path| then Tiled([])
    else
      var x := p.first(path[pos..]);
      if x.None? then Stuck(pos) else Then(x.value, Tiles(p, path, pos + |p.source(x.value)|))
  }

  lemma {:induction false} TilesSound<T(!new)>(p: Pattern<T>, path: string, pos: nat)
    requires Sound(p) && pos <= |path| && Tiles(p, path, pos).Tiled?
    ensures Proper(p, Tiles(p, path, pos).tiles) && path[pos..] == Sources(p, Tiles(p, path, pos).tiles)
    decreases |path| - pos
  {
    if pos < |path| {
      var x := p.first(path[pos..]);
      var next := pos + |p.source(x.value)|;
      TilesSound(p, path, next);
      assert path[pos..] == p.source(x.value) + path[next..];
    }
  }

  lemma OneStep<T(!new)>(p: Pattern<T>, before: string, x: T, rest: string)
    requires Sound(p) && p.first(p.source(x) + rest) == Some(x)
    ensures var path := before + (p.source(x) + rest);
            path == (before + p.source(x)) + rest
            && Tiles(p, path, |before|) == Then(x, Tiles(p, path, |before + p.source(x)|))
  {
    var path := before + (p.source(x) + rest);
    assert path[|before|..] == p.source(x) + rest;
    assert path == (before + p.source(x)) + rest;
  }

  /** What may follow: nothing, or any tile with what follows it. */
  ghost predicate Separates<T(!new)>(p: Pattern<T>) {
    && Follows(p, "")
    && forall x, rest :: p.proper(x) ==> Follows(p, p.source(x) + rest)
  }

  lemma {:induction false} TilesComplete<T(!new)>(p: Pattern<T>, before: string, tiles: seq<T>)
    requires Sound(p) && Separates(p) && Proper(p, tiles)
    ensures Tiles(p, before + Sources(p, tiles), |before|) == Tiled(tiles)
    decreases |tiles|
  {
    if tiles == [] {
      assert before + "" == before;
    } else {
      var x, rest := tiles[0], tiles[1..];
      TilesFollow(p, rest);
      OneStep(p, before, x, Sources(p, rest));
      TilesComplete(p, before + p.source(x), rest);
      assert [x] + rest == tiles;
    }
  }

  lemma TilesFollow<T(!new)>(p: Pattern<T>, tiles: seq<T>)
    requires Separates(p) && Proper(p, tiles)
    ensures Follows(p, Sources(p, tiles))
  {
    if tiles != [] {
      assert p.proper(tiles[0]);
    }
  }

  /** Where the text is refused nothing matches, and everything before it is tiled. */
  lemma {:induction false} StuckAfterTiles<T(!new)>(p: Pattern<T>, path: string, pos: nat)
    requires Sound(p) && pos <= |path| && Tiles(p, path, pos).Stuck?
    ensures var at := Tiles(p, path, pos).position;
            pos <= at < |path| && p.first(path[at..]).None? && IsTiled(p, path[pos..at])
    decreases |path| - pos
  {
    var x, at := p.first(path[pos..]), Tiles(p, path, pos).position;
    if x.None? {
      assert Proper(p, []) && path[pos..pos] == Sources(p, []);
    } else {
      var next := pos + |p.source(x.value)|;
      StuckAfterTiles(p, path, next);
      assert path[pos..at] == p.source(x.value) + path[next..at];
      OneMoreTile(p, x.value, path[next..at]);
    }
  }

  lemma OneMoreTile<T(!new)>(p: Pattern<T>, x: T, text: string)
    requires p.proper(x) && IsTiled(p, text)
    ensures IsTiled(p, p.source(x) + text)
  {
    var rest :| Proper(p, rest) && text == Sources(p, rest);
    var all := [x] + rest;
    assert all[1..] == rest;
    assert Proper(p, all) && Sources(p, all) == p.source(x) + text;
  }

  /** The tiles already found, and those still to come. */
  ghost function After<T>(done: seq<T>, rest: Outcome<T>): Outcome<T> {
    if rest.Tiled? then Tiled(done + rest.tiles) else rest
  }

  lemma OneMore<T>(done: seq<T>, x: T, rest: Outcome<T>)
    ensures After(done, Then(x, rest)) == After(done + [x], rest)
  {
    if rest.Tiled? {
      assert (done + [x]) + rest.tiles == done + ([x] + rest.tiles);
    }
  }
}
