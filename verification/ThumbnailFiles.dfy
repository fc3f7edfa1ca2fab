/**
 Replacing a thumbnail under its generation lock: the present files are stashed, the new ones published, the
 record stored, and the stash put back when something after publication fails.  Any step may fail.  The content
 records every state it passes through: what a reader can see meanwhile, and what a crash leaves behind.
 */
module ThumbnailFiles {
  import opened Options

  type Bytes = seq<nat>

  /** The record is the revision of the stored selection. */
  datatype State = State(thumbnail: Option<Bytes>, poster: Option<Bytes>, record: nat)

  /** What the generator left in the temporary directory; an empty file counts as none. */
  datatype Staged = Staged(output: Bytes, poster: Option<Bytes>)

  /** Which steps work, and the revision that recording makes. */
  datatype Course = Course(
    checks: bool,
    stashes: bool,
    staged: Option<Staged>,
    rechecks: bool,
    posterMoves: bool,
    thumbnailMoves: bool,
    checksLast: bool,
    records: bool,
    revision: nat,
    thumbnailReturns: bool,
    posterReturns: bool)

  /** Everything before publication works, and there is a thumbnail. */
  predicate Reaches(c: Course) {
    c.checks && c.stashes && c.staged.Some? && c.rechecks && c.staged.value.output != []
  }

  /** The state when everything works. */
  function New(c: Course): State
    requires c.staged.Some?
  {
    State(Some(c.staged.value.output),
          if c.staged.value.poster == Some([]) then None else c.staged.value.poster,
          c.revision)
  }

  /** The files and the record are all as before, or all new. */
  predicate Agrees(s: State, c: Course, after: State) {
    after == s || (c.staged.Some? && after == New(c))
  }

  /**
   The thumbnail cannot be moved in after a different poster was, or a replaced file cannot be put back once a later
   step failed.
   */
  predicate Torn(s: State, c: Course) {
    Reaches(c) && c.posterMoves &&
    if c.thumbnailMoves
    then !(c.checksLast && c.records) &&
         ((!c.thumbnailReturns && New(c).thumbnail != s.thumbnail) || (!c.posterReturns && New(c).poster != s.poster))
    else New(c).poster != s.poster
  }

  /**
   What can be seen on the way: each file is the old one or the new one, and both are new by the time the record is.
   The thumbnail is not seen new beside the old poster, unless putting the thumbnail back fails.
   */
  predicate Visible(s: State, c: Course, seen: State)
    requires c.staged.Some?
  {
    && (seen.thumbnail == s.thumbnail || seen.thumbnail == New(c).thumbnail)
    && (seen.poster == s.poster || seen.poster == New(c).poster)
    && (seen.record == s.record || seen == New(c))
    && (seen.thumbnail != s.thumbnail && c.thumbnailReturns ==> seen.poster == New(c).poster)
  }

  class Content {
    var thumbnail: Option<Bytes>
    var poster: Option<Bytes>
    var record: nat
    /** Every state so far, the present one last. */
    ghost var history: seq<State>

    function Now(): State
      reads this
    {
      State(thumbnail, poster, record)
    }

    ghost predicate Valid()
      reads this
    {
      history != [] && history[|history| - 1] == Now()
    }

    constructor (s: State)
      ensures Valid() && Now() == s && history == [s]
    {
      thumbnail, poster, record := s.thumbnail, s.poster, s.record;
      history := [s];
    }

    method MovePoster(to: Option<Bytes>, works: bool)
      requires Valid()
      modifies this`poster, this`history
      ensures Valid() && Now() == old(Now()).(poster := if works then to else old(poster))
      ensures history == old(history) + if works then [Now()] else []
    {
      if works {
        poster := to;
        history := history + [Now()];
      }
    }

    method MoveThumbnail(to: Option<Bytes>, works: bool)
      requires Valid()
      modifies this`thumbnail, this`history
      ensures Valid() && Now() == old(Now()).(thumbnail := if works then to else old(thumbnail))
      ensures history == old(history) + if works then [Now()] else []
    {
      if works {
        thumbnail := to;
        history := history + [Now()];
      }
    }

    method Record(revision: nat)
      requires Valid()
      modifies this`record, this`history
      ensures Valid() && Now() == old(Now()).(record := revision) && history == old(history) + [Now()]
    {
      record := revision;
      history := history + [Now()];
    }

    /**
     PublishThumbnail, once write has left its output: first the poster, then the thumbnail.  A failure has changed the
     poster at most, and a reader never sees the new thumbnail before its poster.
     */
    method Publish(staged: Staged, posterMoves: bool, thumbnailMoves: bool) returns (ok: bool)
      requires Valid()
      modifies this`thumbnail, this`poster, this`history
      ensures Valid() && old(history) <= history && record == old(record)
      ensures ok <==> staged.output != [] && posterMoves && thumbnailMoves
      ensures ok ==> thumbnail == Some(staged.output) && poster == (if staged.poster == Some([]) then None else staged.poster)
      ensures !ok ==> thumbnail == old(thumbnail)
      ensures !ok ==> poster == if staged.output != [] && posterMoves
                                then (if staged.poster == Some([]) then None else staged.poster) else old(poster)
      ensures forall i | |old(history)| <= i < |history| ::
                history[i].record == record && history[i].poster == poster &&
                (history[i].thumbnail == old(thumbnail) || (ok && history[i].thumbnail == thumbnail))
    {
      if staged.output == [] {
        return false;
      }
      MovePoster(if staged.poster == Some([]) then None else staged.poster, posterMoves);
      if !posterMoves {
        return false;
      }
      MoveThumbnail(Some(staged.output), thumbnailMoves);
      ok := thumbnailMoves;
    }

    /** The restore function of a stash: the thumbnail first, and both are tried, whichever fails. */
    method Restore(stash: State, thumbnailReturns: bool, posterReturns: bool)
      requires Valid()
      modifies this`thumbnail, this`poster, this`history
      ensures Valid() && old(history) <= history && record == old(record)
      ensures thumbnail == if thumbnailReturns then stash.thumbnail else old(thumbnail)
      ensures poster == if posterReturns then stash.poster else old(poster)
      ensures forall i | |old(history)| <= i < |history| ::
                history[i].record == record && history[i].thumbnail == thumbnail &&
                (history[i].poster == old(poster) || history[i].poster == stash.poster)
    {
      MoveThumbnail(stash.thumbnail, thumbnailReturns);
      MovePoster(stash.poster, posterReturns);
    }

    /**
     replaceThumbnailWithFrame, for a chosen position and for a revert.  It succeeds exactly when the record is new,
     and then the files are.  Whichever step fails, files and record agree unless they are torn.
     */
    method ReplaceWithFrame(c: Course) returns (ok: bool)
      requires Valid() && c.revision > record
      modifies this
      ensures Valid() && old(history) <= history
      ensures ok <==> record == c.revision
      ensures ok <==> Reaches(c) && c.posterMoves && c.thumbnailMoves && c.checksLast && c.records
      ensures ok ==> Now() == New(c)
      ensures !ok ==> record == old(record)
      ensures Agrees(old(Now()), c, Now()) <==> !Torn(old(Now()), c)
      ensures if c.staged.None? then history == old(history)
              else forall i | |old(history)| <= i < |history| :: Visible(old(Now()), c, history[i])
      ensures forall i | |old(history)| <= i < |history| - 1 :: history[i].record == old(record)
    {
      if !c.checks || !c.stashes {
        return false;
      }
      var stash := Now();
      if c.staged.None? || !c.rechecks {
        return false;
      }
      var published := Publish(c.staged.value, c.posterMoves, c.thumbnailMoves);
      if !published {
        // The stash is discarded, not put back.
        return false;
      }
      ok := RecordOrRestore(stash, c, c.checksLast && c.records);
    }

    /** What follows a publication that worked. */
    method RecordOrRestore(stash: State, c: Course, records: bool) returns (ok: bool)
      requires Valid() && c.staged.Some? && c.revision > stash.record && Now() == New(c).(record := stash.record)
      modifies this
      ensures Valid() && old(history) <= history && ok == records
      ensures ok ==> Now() == New(c)
      ensures !ok ==> Now() == State(if c.thumbnailReturns then stash.thumbnail else New(c).thumbnail,
                                     if c.posterReturns then stash.poster else New(c).poster, stash.record)
      ensures forall i | |old(history)| <= i < |history| :: Visible(stash, c, history[i])
      ensures forall i | |old(history)| <= i < |history| - 1 :: history[i].record == stash.record
    {
      if records {
        Record(c.revision);
      } else {
        Restore(stash, c.thumbnailReturns, c.posterReturns);
      }
      ok := records;
    }

    /** applyThumbnailImage: the same without a source to check again, before publication or after it. */
    method ApplyImage(c: Course) returns (ok: bool)
      requires Valid() && c.revision > record && c.rechecks && c.checksLast
      modifies this
      ensures Valid() && old(history) <= history
      ensures ok <==> record == c.revision
      ensures ok <==> Reaches(c) && c.posterMoves && c.thumbnailMoves && c.records
      ensures ok ==> Now() == New(c)
      ensures !ok ==> record == old(record)
      ensures Agrees(old(Now()), c, Now()) <==> !Torn(old(Now()), c)
      ensures if c.staged.None? then history == old(history)
              else forall i | |old(history)| <= i < |history| :: Visible(old(Now()), c, history[i])
      ensures forall i | |old(history)| <= i < |history| - 1 :: history[i].record == old(record)
    {
      if !c.checks || !c.stashes || c.staged.None? {
        return false;
      }
      var stash := Now();
      var published := Publish(c.staged.value, c.posterMoves, c.thumbnailMoves);
      if !published {
        return false;
      }
      ok := RecordOrRestore(stash, c, c.records);
    }
  }

  // ---------------------------------------------------------------- crashes and readers

  /**
   What a crash on the way can leave is one of four states: everything old, the new poster with the old thumbnail, both
   new files with the old record, or everything new; never the new thumbnail with the old poster, or a new record with
   an old file.
   */
  lemma CrashLeaves(s: State, c: Course, seen: State)
    requires c.staged.Some? && c.thumbnailReturns
    ensures Visible(s, c, seen) <==>
              seen == s || seen == s.(poster := New(c).poster) || seen == New(c).(record := s.record) || seen == New(c)
    ensures Visible(s, c, seen) && !Agrees(s, c, seen) ==> seen.poster == New(c).poster && seen.record == s.record
  {
  }

  /** A reader that sees the new revision and reads the files afterwards reads the new ones. */
  lemma NewRevisionReadsNewFiles(s: State, c: Course, history: seq<State>, from: nat, i: nat, j: nat, k: nat)
    requires c.staged.Some? && c.revision > s.record && from <= i <= j < |history| && i <= k < |history|
    requires forall n | from <= n < |history| :: Visible(s, c, history[n])
    requires forall n | from <= n < |history| - 1 :: history[n].record == s.record
    requires history[i].record == c.revision
    ensures history[j].thumbnail == New(c).thumbnail && history[k].poster == New(c).poster
  {
    assert i == |history| - 1;
  }
}
