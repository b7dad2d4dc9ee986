/** One list of keys out of every upstream's answer, and the routes back
    (daemon/src/agent.rs, `refresh_identities`). */
module Merging {
  import opened Basics
  import opened Identities

  type Blob = seq<byte>

  /** One key as one upstream offered it. */
  datatype Offer = Offer(blob: Blob, comment: seq<byte>, upstream: nat)

  function OffersOf(ids: seq<Identity>, upstream: nat): seq<Offer> {
    seq(|ids|, i requires 0 <= i < |ids| => Offer(ids[i].0, ids[i].1, upstream))
  }

  /** Everything offered, upstream by upstream; one that failed offers nothing. */
  function Offers(answers: Answers): seq<Offer> {
    if answers == [] then []
    else
      var n := |answers| - 1;
      Offers(answers[..n]) + match answers[n] case None => [] case Some(ids) => OffersOf(ids, n)
  }

  predicate Has(offers: seq<Offer>, blob: Blob) {
    exists k | 0 <= k < |offers| :: offers[k].blob == blob
  }

  function Merged(offers: seq<Offer>): seq<Offer> {
    if offers == [] then []
    else
      var (front, last) := (offers[..|offers| - 1], offers[|offers| - 1]);
      if Has(Merged(front), last.blob) then Merged(front) else Merged(front) + [last]
  }

  function Identified(offers: seq<Offer>): seq<Identity> {
    seq(|offers|, i requires 0 <= i < |offers| => (offers[i].blob, offers[i].comment))
  }

  /** The maps a list of merged offers stands for. */
  ghost predicate Routed(offers: seq<Offer>, routes: map<Blob, nat>, comments: map<Blob, seq<byte>>) {
    && (forall b :: b in routes <==> Has(offers, b))
    && (forall b :: b in comments <==> Has(offers, b))
    && (forall k | 0 <= k < |offers| :: offers[k].blob in routes && routes[offers[k].blob] == offers[k].upstream)
    && (forall k | 0 <= k < |offers| :: offers[k].blob in comments && comments[offers[k].blob] == offers[k].comment)
  }

  lemma MergedStep(offers: seq<Offer>, last: Offer)
    ensures Merged(offers + [last]) == if Has(Merged(offers), last.blob) then Merged(offers) else Merged(offers) + [last]
  {
    assert (offers + [last])[..|offers|] == offers;
  }

  lemma RoutedStep(offers: seq<Offer>, last: Offer, routes: map<Blob, nat>, comments: map<Blob, seq<byte>>)
    requires Routed(offers, routes, comments) && !Has(offers, last.blob)
    ensures Routed(offers + [last], routes[last.blob := last.upstream], comments[last.blob := last.comment])
  {
    var all := offers + [last];
    forall b ensures Has(all, b) <==> Has(offers, b) || b == last.blob {
      assert all[|offers|] == last;
      if Has(offers, b) {
        var k :| 0 <= k < |offers| && offers[k].blob == b;
        assert all[k].blob == b;
      }
    }
  }

  lemma IdentifiedStep(offers: seq<Offer>, last: Offer)
    ensures Identified(offers + [last]) == Identified(offers) + [(last.blob, last.comment)]
  {
  }

  /** The list and the maps are what has been offered so far comes to. */
  ghost predicate Stands(done: seq<Offer>, merged: seq<Identity>, routes: map<Blob, nat>, comments: map<Blob, seq<byte>>) {
    merged == Identified(Merged(done)) && Routed(Merged(done), routes, comments)
  }

  /** One offer, taken or passed over. */
  lemma OfferStep(done: seq<Offer>, o: Offer, merged: seq<Identity>, routes: map<Blob, nat>, comments: map<Blob, seq<byte>>)
    requires Stands(done, merged, routes, comments)
    ensures o.blob in routes ==> Stands(done + [o], merged, routes, comments)
    ensures o.blob !in routes ==>
      Stands(done + [o], merged + [(o.blob, o.comment)], routes[o.blob := o.upstream], comments[o.blob := o.comment])
  {
    MergedStep(done, o);
    if o.blob !in routes {
      RoutedStep(Merged(done), o, routes, comments);
      IdentifiedStep(Merged(done), o);
    }
  }

  class Registry {
    var routes: map<Blob, nat>
    var comments: map<Blob, seq<byte>>

    constructor ()
      ensures routes == map[] && comments == map[]
    {
      routes := map[];
      comments := map[];
    }

    method Refresh(answers: Answers) returns (merged: seq<Identity>)
      modifies this
      ensures merged == Identified(Merged(Offers(answers)))
      ensures Routed(Merged(Offers(answers)), routes, comments)
      ensures RoutesFollow(answers, routes, comments) && ListFollows(merged, routes, comments)
      ensures OrderFollows(answers, merged, routes)
    {
      merged := [];
      var newRoutes: map<Blob, nat> := map[];
      var newComments: map<Blob, seq<byte>> := map[];
      for idx := 0 to |answers|
        invariant Stands(Offers(answers[..idx]), merged, newRoutes, newComments)
      {
        ghost var before := Offers(answers[..idx]);
        assert answers[..idx + 1][..idx] == answers[..idx];
        assert before + [] == before;
        if answers[idx].Some? {
          merged, newRoutes, newComments := Take(answers[idx].value, idx, before, merged, newRoutes, newComments);
        }
      }
      assert answers[..|answers|] == answers;
      RoutesAreOfListings(answers, newRoutes, newComments);
      EveryOfferIsRouted(answers, newRoutes, newComments);
      ListIsOfRoutes(Offers(answers), merged, newRoutes, newComments);
      OrderIsOfListings(answers, merged, newRoutes, newComments);
      routes := newRoutes;
      comments := newComments;
    }

    /** One upstream's keys, in turn: the first upstream to claim a key keeps it. */
    static method Take(ids: seq<Identity>, idx: nat, ghost before: seq<Offer>,
                       merged: seq<Identity>, routes: map<Blob, nat>, comments: map<Blob, seq<byte>>)
        returns (merged': seq<Identity>, routes': map<Blob, nat>, comments': map<Blob, seq<byte>>)
      requires Stands(before, merged, routes, comments)
      ensures Stands(before + OffersOf(ids, idx), merged', routes', comments')
    {
      merged', routes', comments' := merged, routes, comments;
      ghost var offered := OffersOf(ids, idx);
      assert before + offered[..0] == before;
      for i := 0 to |ids|
        invariant Stands(before + offered[..i], merged', routes', comments')
      {
        var (blob, comment) := ids[i];
        OfferStep(before + offered[..i], Offer(blob, comment, idx), merged', routes', comments');
        NextOffer(before, offered, i);
        if blob in routes' {
          continue;
        }
        routes' := routes'[blob := idx];
        comments' := comments'[blob := comment];
        merged' := merged' + [(blob, comment)];
      }
      assert offered[..|ids|] == offered;
    }
  }

  lemma NextOffer(before: seq<Offer>, offered: seq<Offer>, i: nat)
    requires i < |offered|
    ensures before + offered[..i + 1] == before + offered[..i] + [offered[i]]
  {
  }

  // ---- first wins

  /** `p` is where its key is first offered. */
  predicate FirstOffer(offers: seq<Offer>, p: nat) {
    p < |offers| && forall q | 0 <= q < p :: offers[q].blob != offers[p].blob
  }

  /** `m` is made of first offers, in the order they came. */
  ghost predicate InFirstOrder(offers: seq<Offer>, m: seq<Offer>, at: seq<nat>) {
    && |at| == |m|
    && (forall k | 0 <= k < |m| :: FirstOffer(offers, at[k]) && m[k] == offers[at[k]])
    && (forall j, k | 0 <= j < k < |m| :: at[j] < at[k])
  }

  lemma {:induction false} MergeIsComplete(offers: seq<Offer>, p: nat)
    requires p < |offers|
    ensures Has(Merged(offers), offers[p].blob)
  {
    var n := |offers| - 1;
    var m := Merged(offers[..n]);
    if p < n {
      MergeIsComplete(offers[..n], p);
      var k :| 0 <= k < |m| && m[k].blob == offers[..n][p].blob;
      assert Merged(offers)[k] == m[k];
    } else if !Has(m, offers[n].blob) {
      assert Merged(offers)[|m|] == offers[n];
    }
  }

  lemma {:induction false} MergeInFirstOrder(offers: seq<Offer>) returns (at: seq<nat>)
    ensures InFirstOrder(offers, Merged(offers), at)
  {
    if offers == [] {
      at := [];
    } else {
      var n := |offers| - 1;
      var front, last := offers[..n], offers[n];
      at := MergeInFirstOrder(front);
      FirstOrderLater(front, last, Merged(front), at);
      assert front + [last] == offers;
      if !Has(Merged(front), last.blob) {
        forall q | 0 <= q < n ensures offers[q].blob != last.blob {
          MergeIsComplete(front, q);
        }
        at := at + [n];
      }
    }
  }

  lemma FirstOrderLater(offers: seq<Offer>, last: Offer, m: seq<Offer>, at: seq<nat>)
    requires InFirstOrder(offers, m, at)
    ensures InFirstOrder(offers + [last], m, at)
  {
  }

  /** The merge takes each key where it is first offered, in that order, and leaves none out. */
  lemma FirstWins(offers: seq<Offer>) returns (at: seq<nat>)
    ensures InFirstOrder(offers, Merged(offers), at)
    ensures forall p | 0 <= p < |offers| :: Has(Merged(offers), offers[p].blob)
    ensures forall j, k | 0 <= j < k < |Merged(offers)| :: Merged(offers)[j].blob != Merged(offers)[k].blob
  {
    at := MergeInFirstOrder(offers);
    forall p | 0 <= p < |offers| ensures Has(Merged(offers), offers[p].blob) {
      MergeIsComplete(offers, p);
    }
    forall j, k | 0 <= j < k < |Merged(offers)| ensures Merged(offers)[j].blob != Merged(offers)[k].blob {
      assert FirstOffer(offers, at[k]) && at[j] < at[k];
    }
  }

  // ---- what the answers say

  type Answers = seq<Option<seq<Identity>>>

  /** Upstream `u` answered, and its `i`th identity is this one. */
  predicate Lists(answers: Answers, u: int, i: int, blob: Blob, comment: seq<byte>) {
    0 <= u < |answers| && answers[u].Some? && 0 <= i < |answers[u].value| && answers[u].value[i] == (blob, comment)
  }

  ghost predicate Listed(answers: Answers, blob: Blob) {
    exists u, i, comment :: Lists(answers, u, i, blob, comment)
  }

  /** No upstream before `u` lists the key, nor `u` itself before its `i`th identity. */
  ghost predicate FirstListing(answers: Answers, u: nat, i: nat, blob: Blob, comment: seq<byte>) {
    && Lists(answers, u, i, blob, comment)
    && (forall v, j | 0 <= v < u && answers[v].Some? && 0 <= j < |answers[v].value| :: answers[v].value[j].0 != blob)
    && (forall j | 0 <= j < i :: answers[u].value[j].0 != blob)
  }

  /** Where what upstream `u` lists stands among everything offered. */
  lemma {:induction false} OfferOfListing(answers: Answers, u: nat, i: nat)
    requires u < |answers| && answers[u].Some? && i < |answers[u].value|
    ensures var p := |Offers(answers[..u])| + i;
      p < |Offers(answers)| && Offers(answers)[p] == Offer(answers[u].value[i].0, answers[u].value[i].1, u)
  {
    var n := |answers| - 1;
    if u < n {
      OfferOfListing(answers[..n], u, i);
      assert answers[..n][..u] == answers[..u];
    }
  }

  lemma {:induction false} ListingOfOffer(answers: Answers, p: nat) returns (i: nat)
    requires p < |Offers(answers)|
    ensures var o := Offers(answers)[p];
      Lists(answers, o.upstream, i, o.blob, o.comment) && p == |Offers(answers[..o.upstream])| + i
  {
    var n := |answers| - 1;
    var before := Offers(answers[..n]);
    if p < |before| {
      i := ListingOfOffer(answers[..n], p);
      assert answers[..n][..before[p].upstream] == answers[..before[p].upstream];
    } else {
      i := p - |before|;
    }
  }

  lemma {:induction false} EarlierUpstreamsFirst(answers: Answers, u: nat, v: nat)
    requires u <= v <= |answers|
    ensures |Offers(answers[..u])| <= |Offers(answers[..v])|
    ensures u < v && answers[u].Some? ==> |Offers(answers[..u])| + |answers[u].value| <= |Offers(answers[..v])|
  {
    if u < v {
      EarlierUpstreamsFirst(answers, u, v - 1);
      assert answers[..v][..v - 1] == answers[..v - 1];
    }
  }

  /** The first offer of a key is its first listing. */
  lemma FirstOfferIsFirstListing(answers: Answers, p: nat) returns (i: nat)
    requires FirstOffer(Offers(answers), p)
    ensures var o := Offers(answers)[p]; FirstListing(answers, o.upstream, i, o.blob, o.comment)
  {
    var offers := Offers(answers);
    var o := offers[p];
    i := ListingOfOffer(answers, p);
    forall v, j | 0 <= v < o.upstream && answers[v].Some? && 0 <= j < |answers[v].value| ensures answers[v].value[j].0 != o.blob {
      OfferOfListing(answers, v, j);
      EarlierUpstreamsFirst(answers, v, o.upstream);
    }
    forall j | 0 <= j < i ensures answers[o.upstream].value[j].0 != o.blob {
      OfferOfListing(answers, o.upstream, j);
    }
  }

  lemma OffersAreListings(answers: Answers, blob: Blob)
    ensures Has(Offers(answers), blob) <==> Listed(answers, blob)
  {
    if Has(Offers(answers), blob) {
      var p :| 0 <= p < |Offers(answers)| && Offers(answers)[p].blob == blob;
      var i := ListingOfOffer(answers, p);
      var o := Offers(answers)[p];
      assert Lists(answers, o.upstream, i, blob, o.comment);
    }
    if u, i, comment :| Lists(answers, u, i, blob, comment) {
      OfferOfListing(answers, u, i);
    }
  }

  /** A key is routed to the first upstream that answered with it, under the comment it first
      had there. */
  lemma RoutesAreLeast(answers: Answers, routes: map<Blob, nat>, comments: map<Blob, seq<byte>>, blob: Blob)
    requires Routed(Merged(Offers(answers)), routes, comments) && blob in routes
    ensures blob in comments && exists i :: FirstListing(answers, routes[blob], i, blob, comments[blob])
    ensures routes[blob] < |answers| && answers[routes[blob]].Some? && (blob, comments[blob]) in answers[routes[blob]].value
    ensures forall u, i | 0 <= u < routes[blob] && answers[u].Some? && 0 <= i < |answers[u].value| :: answers[u].value[i].0 != blob
  {
    var m := Merged(Offers(answers));
    var at := FirstWins(Offers(answers));
    var k :| 0 <= k < |m| && m[k].blob == blob;
    assert Offers(answers)[at[k]] == m[k];
    var i := FirstOfferIsFirstListing(answers, at[k]);
    assert FirstListing(answers, routes[blob], i, blob, comments[blob]);
  }

  /** Exactly the keys somebody answered with are routed, under one comment each: as many as
      were merged. */
  lemma EveryOfferIsRouted(answers: Answers, routes: map<Blob, nat>, comments: map<Blob, seq<byte>>)
    requires Routed(Merged(Offers(answers)), routes, comments)
    ensures routes.Keys == comments.Keys
    ensures forall b :: b in routes <==> Listed(answers, b)
    ensures |routes| == |Merged(Offers(answers))|
  {
    var offers := Offers(answers);
    var m := Merged(offers);
    var at := FirstWins(offers);
    forall b ensures b in routes <==> Listed(answers, b) {
      OffersAreListings(answers, b);
      if Has(m, b) {
        var k :| 0 <= k < |m| && m[k].blob == b;
        assert offers[at[k]].blob == b;
      }
    }
    CountDistinct(m, routes.Keys);
  }

  /** The routes and comments of exactly the keys listed, each by its first listing. */
  ghost predicate RoutesFollow(answers: Answers, routes: map<Blob, nat>, comments: map<Blob, seq<byte>>) {
    && routes.Keys == comments.Keys
    && (forall b :: b in routes <==> Listed(answers, b))
    && (forall b | b in routes :: exists i :: FirstListing(answers, routes[b], i, b, comments[b]))
  }

  /** The list has each routed key once, under its comment. */
  ghost predicate ListFollows(merged: seq<Identity>, routes: map<Blob, nat>, comments: map<Blob, seq<byte>>) {
    && |merged| == |routes|
    && (forall k | 0 <= k < |merged| :: merged[k].0 in routes && merged[k].0 in comments && merged[k].1 == comments[merged[k].0])
    && (forall j, k | 0 <= j < k < |merged| :: merged[j].0 != merged[k].0)
  }

  /** In the order the keys are first listed. */
  ghost predicate OrderFollows(answers: Answers, merged: seq<Identity>, routes: map<Blob, nat>) {
    && (forall k | 0 <= k < |merged| :: merged[k].0 in routes)
    && (forall j, k | 0 <= j < k < |merged| :: ListedBefore(answers, merged[j], routes[merged[j].0], merged[k], routes[merged[k].0]))
  }

  /** `a` is first listed, by upstream `u`, before `b` is, by upstream `v`. */
  ghost predicate ListedBefore(answers: Answers, a: Identity, u: nat, b: Identity, v: nat) {
    exists i, j :: FirstListing(answers, u, i, a.0, a.1) && FirstListing(answers, v, j, b.0, b.1) && (u < v || (u == v && i < j))
  }

  lemma MergedInOrder(answers: Answers, at: seq<nat>, j: nat, k: nat)
    requires InFirstOrder(Offers(answers), Merged(Offers(answers)), at) && j < k < |Merged(Offers(answers))|
    ensures var a, b := Merged(Offers(answers))[j], Merged(Offers(answers))[k];
      ListedBefore(answers, (a.blob, a.comment), a.upstream, (b.blob, b.comment), b.upstream)
  {
    var offers, m := Offers(answers), Merged(Offers(answers));
    assert m[j] == offers[at[j]] && m[k] == offers[at[k]] && at[j] < at[k];
    var u, v := m[j].upstream, m[k].upstream;
    var i := FirstOfferIsFirstListing(answers, at[j]);
    var i' := FirstOfferIsFirstListing(answers, at[k]);
    OfferOfListing(answers, u, i);
    OfferOfListing(answers, v, i');
    var first := ListingOfOffer(answers, at[j]);
    var second := ListingOfOffer(answers, at[k]);
    assert first == i && second == i';
    if v < u {
      EarlierUpstreamsFirst(answers, v, u);
    }
  }

  lemma RoutesAreOfListings(answers: Answers, routes: map<Blob, nat>, comments: map<Blob, seq<byte>>)
    requires Routed(Merged(Offers(answers)), routes, comments)
    ensures RoutesFollow(answers, routes, comments)
  {
    EveryOfferIsRouted(answers, routes, comments);
    forall b | b in routes ensures exists i :: FirstListing(answers, routes[b], i, b, comments[b]) {
      RoutesAreLeast(answers, routes, comments, b);
    }
  }

  lemma MergedIdentity(offers: seq<Offer>, merged: seq<Identity>, routes: map<Blob, nat>, comments: map<Blob, seq<byte>>, k: nat)
    requires Stands(offers, merged, routes, comments) && k < |merged|
    ensures var o := Merged(offers)[k];
      && merged[k] == (o.blob, o.comment)
      && o.blob in routes && routes[o.blob] == o.upstream && o.blob in comments && comments[o.blob] == o.comment
  {
  }

  lemma ListIsOfRoutes(offers: seq<Offer>, merged: seq<Identity>, routes: map<Blob, nat>, comments: map<Blob, seq<byte>>)
    requires Stands(offers, merged, routes, comments) && |routes| == |Merged(offers)|
    ensures ListFollows(merged, routes, comments)
  {
    var at := FirstWins(offers);
    forall k | 0 <= k < |merged| ensures merged[k].0 in routes && merged[k].0 in comments && merged[k].1 == comments[merged[k].0] {
      MergedIdentity(offers, merged, routes, comments, k);
    }
    forall j, k | 0 <= j < k < |merged| ensures merged[j].0 != merged[k].0 {
      assert Merged(offers)[j].blob != Merged(offers)[k].blob;
    }
  }

  lemma OrderIsOfListings(answers: Answers, merged: seq<Identity>, routes: map<Blob, nat>, comments: map<Blob, seq<byte>>)
    requires Stands(Offers(answers), merged, routes, comments) && ListFollows(merged, routes, comments)
    ensures OrderFollows(answers, merged, routes)
  {
    var at := MergeInFirstOrder(Offers(answers));
    forall j, k | 0 <= j < k < |merged|
      ensures ListedBefore(answers, merged[j], routes[merged[j].0], merged[k], routes[merged[k].0])
    {
      MergedIdentity(Offers(answers), merged, routes, comments, j);
      MergedIdentity(Offers(answers), merged, routes, comments, k);
      MergedInOrder(answers, at, j, k);
    }
  }

  lemma {:induction false} CountDistinct(m: seq<Offer>, keys: set<Blob>)
    requires forall j, k | 0 <= j < k < |m| :: m[j].blob != m[k].blob
    requires forall b :: b in keys <==> Has(m, b)
    ensures |keys| == |m|
  {
    if m == [] {
      assert keys == {};
    } else {
      var n := |m| - 1;
      var front := m[..n];
      forall b ensures b in keys - {m[n].blob} <==> Has(front, b) {
        if b in keys && b != m[n].blob {
          var k :| 0 <= k < |m| && m[k].blob == b;
          assert front[k].blob == b;
        }
        if Has(front, b) {
          var k :| 0 <= k < |front| && front[k].blob == b;
          assert m[k].blob == b;
        }
      }
      assert Has(m, m[n].blob);
      CountDistinct(front, keys - {m[n].blob});
    }
  }
}
