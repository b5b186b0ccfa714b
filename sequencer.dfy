/** The playlist and the circular movement of the current track index. */
module Sequencer {

  datatype Track = Track(id: string, title: string, artist: string)

  /** The fixed playlist of the app. */
  const Playlist: seq<Track> := [
    Track("1ggAUirIR71vPX0_0DHHOg9rrYsdTuAYW", "Canción 1", "Google Drive Audio"),
    Track("1xhgBc2F6S5G1gN7-5-AiqBmx4ZQ52Ex8", "Canción 2", "Google Drive Audio")
  ]

  /** JavaScript's `%` for a positive divisor: the remainder of division
      truncated toward zero, which takes the sign of the dividend. */
  function JsRem(a: int, n: int): (r: int)
    requires n > 0
    ensures a >= 0 ==> 0 <= r < n && r == a % n
    ensures a < 0 ==> -n < r <= 0
  {
    if a >= 0 then a % n else -((-a) % n)
  }

  /** `handleNextTrack`: `(prev + 1) % PLAYLIST.length`. */
  function Next(i: int, n: int): (r: int)
    requires n > 0
    ensures 0 <= i < n ==> 0 <= r < n && r == (if i == n - 1 then 0 else i + 1)
  {
    JsRem(i + 1, n)
  }

  /** `handlePrevTrack`: `(prev - 1 + PLAYLIST.length) % PLAYLIST.length`. */
  function Prev(i: int, n: int): (r: int)
    requires n > 0
    ensures 0 <= i < n ==> 0 <= r < n && r == (if i == 0 then n - 1 else i - 1)
  {
    JsRem(i - 1 + n, n)
  }

  /** Next and previous undo each other on every valid index. */
  lemma NextPrevInverse(i: int, n: int)
    requires 0 <= i < n
    ensures Prev(Next(i, n), n) == i
    ensures Next(Prev(i, n), n) == i
  {
  }

  /** The index after `k` advances from `i`, as when every track plays to
      its end. */
  function Advance(i: int, n: int, k: nat): int
    requires n > 0
  {
    if k == 0 then i else Next(Advance(i, n, k - 1), n)
  }

  /** Within one lap the index just counts up. */
  lemma {:induction false} AdvanceWithinLap(i: int, n: int, k: nat)
    requires n > 0 && 0 <= i && i + k < n
    ensures Advance(i, n, k) == i + k
  {
    if k > 0 {
      AdvanceWithinLap(i, n, k - 1);
    }
  }

  /** Advancing `a` times and then `b` times is advancing `a + b` times. */
  lemma {:induction false} AdvanceAdd(i: int, n: int, a: nat, b: nat)
    requires n > 0
    ensures Advance(i, n, a + b) == Advance(Advance(i, n, a), n, b)
  {
    if b > 0 {
      AdvanceAdd(i, n, a, b - 1);
    }
  }

  /** After `q` whole laps and `r` more steps from the first track, the
      index is `r`. */
  lemma {:induction false} AdvanceLaps(n: int, q: nat, r: nat)
    requires n > 0 && r < n
    ensures Advance(0, n, q * n + r) == r
  {
    if q == 0 {
      AdvanceWithinLap(0, n, r);
    } else {
      AdvanceWithinLap(0, n, n - 1);
      assert Advance(0, n, n) == 0;
      assert q * n + r == n + ((q - 1) * n + r);
      AdvanceAdd(0, n, n, (q - 1) * n + r);
      AdvanceLaps(n, q - 1, r);
    }
  }

  /** Playing on from the first track visits the tracks in playlist order,
      round and round: after `k` advances the index is `k mod n`. */
  lemma AdvanceFromStart(n: int, k: nat)
    requires n > 0
    ensures Advance(0, n, k) == k % n
  {
    var q, r := k / n, k % n;
    assert k == q * n + r;
    AdvanceLaps(n, q, r);
  }

  /** With the two-track playlist, next from the last track wraps to the
      first and previous from the first wraps to the last. */
  lemma PlaylistWraps()
    ensures |Playlist| == 2
    ensures Next(1, |Playlist|) == 0 && Prev(0, |Playlist|) == 1
    ensures Next(0, |Playlist|) == 1 && Prev(1, |Playlist|) == 0
  {
  }
}
