/**
 * The face-recognition service: the in-memory stores of reference encodings and of processed
 * photos, the statistics endpoint, reference-face registration, the two comparison endpoints
 * and the per-user photo search. Image decoding and the face library are abstracted: a scan
 * of an image is the list of faces found in it, and face comparison is a parameter.
 */
module FaceApi {
  import opened Types
  import Seqs

  /** A face encoding (`face_encoding.tolist()`). */
  type Encoding = seq<real>

  /** The face box of a located face. */
  datatype Box = Box(top: int, right: int, bottom: int, left: int)

  /** A face found in a target image: where it is and its encoding. */
  datatype TargetFace = TargetFace(location: Box, encoding: Encoding)

  /** One detection of a processed photo. */
  datatype Detection = Detection(userId: string, confidence: real)

  /** One entry of the processed-photo store, keyed by `photoId`. */
  datatype PhotoResult = PhotoResult(photoId: string, eventId: string, detections: seq<Detection>, processedAt: string)

  /** Which check raised inside a handler; every one of them leaves the handler as a 500. */
  datatype Cause = NoFaceDetected | MultipleFaces | NoReferenceFace | NoTargetFace | UserNotFound | Internal

  /** The HTTP error a handler raises: the status, the handler's message prefix and the cause. */
  datatype ApiError = ApiError(status: nat, prefix: string, cause: Cause)

  const ProcessImagePrefix := "Erro ao processar imagem: "
  const ProcessingPrefix := "Erro no processamento: "
  const SearchPrefix := "Erro na busca: "

  /** The generic handler around each endpoint body. */
  function Wrap(prefix: string, cause: Cause): (e: ApiError)
    ensures e.status == 500 && e.prefix == prefix && e.cause == cause
  {
    ApiError(500, prefix, cause)
  }

  // ---------------------------------------------------------------- statistics

  datatype Stats = Stats(totalUsersRegistered: nat, totalPhotosProcessed: nat, totalDetections: nat)

  /** The number of detections over all processed photos. */
  function SumDetections(results: seq<PhotoResult>): nat
  {
    if results == [] then 0
    else SumDetections(results[..|results| - 1]) + |results[|results| - 1].detections|
  }

  lemma {:induction false} SumDetectionsAppend(a: seq<PhotoResult>, b: seq<PhotoResult>)
    ensures SumDetections(a + b) == SumDetections(a) + SumDetections(b)
  {
    if b != [] {
      var b' := b[..|b| - 1];
      SumDetectionsAppend(a, b');
      assert (a + b)[..|a + b| - 1] == a + b';
      assert (a + b)[|a + b| - 1] == b[|b| - 1];
    } else {
      assert a + b == a;
    }
  }

  /** There are no detections at all exactly when every processed photo has none. */
  lemma {:induction false} NoDetectionsIffAllEmpty(results: seq<PhotoResult>)
    ensures SumDetections(results) == 0 <==> forall i :: 0 <= i < |results| ==> results[i].detections == []
  {
    if results != [] {
      var init := results[..|results| - 1];
      NoDetectionsIffAllEmpty(init);
      assert forall i :: 0 <= i < |init| ==> init[i] == results[i];
    }
  }

  /** Each photo contributes at least as much as any one of its detections lists. */
  lemma {:induction false} DetectionsOfOnePhoto(results: seq<PhotoResult>, k: nat)
    requires k < |results|
    ensures |results[k].detections| <= SumDetections(results)
  {
    if k < |results| - 1 {
      DetectionsOfOnePhoto(results[..|results| - 1], k);
    }
  }

  /** Writing one key of a map adds at most one entry. */
  lemma MapUpdateSize<K, V>(m: map<K, V>, k: K, v: V)
    ensures |m[k := v]| == if k in m then |m| else |m| + 1
  {
    if k in m {
      assert m[k := v].Keys == m.Keys;
    } else {
      assert m[k := v].Keys == m.Keys + {k};
    }
  }

  // ---------------------------------------------------------------- photo search

  /** `detections[k]` is the first detection of `userId`. */
  predicate FirstDetectionAt(detections: seq<Detection>, userId: string, k: int)
  {
    && 0 <= k < |detections| && detections[k].userId == userId
    && forall j :: 0 <= j < k ==> detections[j].userId != userId
  }

  /** The confidence of the first detection of `userId`, if any. */
  function FirstConfidence(detections: seq<Detection>, userId: string): (r: Option<real>)
    ensures r.None? <==> forall i :: 0 <= i < |detections| ==> detections[i].userId != userId
    ensures r.Some? ==> exists i :: 0 <= i < |detections| && detections[i] == Detection(userId, r.value)
    ensures forall k {:trigger FirstDetectionAt(detections, userId, k)} ::
              FirstDetectionAt(detections, userId, k) ==> r == Some(detections[k].confidence)
  {
    if detections == [] then None
    else if detections[0].userId == userId then Some(detections[0].confidence)
    else
      var r := FirstConfidence(detections[1..], userId);
      assert forall i :: 1 <= i < |detections| ==> detections[i] == detections[1..][i - 1];
      assert forall k {:trigger FirstDetectionAt(detections, userId, k)} ::
        FirstDetectionAt(detections, userId, k) ==> FirstDetectionAt(detections[1..], userId, k - 1);
      r
  }

  /** `if event_id and result["event_id"] != event_id: continue` — an absent or empty id filters nothing. */
  predicate InEvent(r: PhotoResult, eventId: Option<string>)
  {
    eventId.None? || eventId.value == "" || r.eventId == eventId.value
  }

  /** One entry of the search list. */
  datatype PhotoMatch = PhotoMatch(photoId: string, eventId: string, confidence: real, processedAt: string)

  /** What one processed photo contributes to the search list: nothing or one entry. */
  function Entry(r: PhotoResult, userId: string, eventId: Option<string>): (m: seq<PhotoMatch>)
    ensures |m| <= 1
    ensures |m| == 1 <==> InEvent(r, eventId) && FirstConfidence(r.detections, userId).Some?
    ensures |m| == 1 ==> m[0] == PhotoMatch(r.photoId, r.eventId, FirstConfidence(r.detections, userId).value, r.processedAt)
  {
    if InEvent(r, eventId) then
      match FirstConfidence(r.detections, userId)
      case Some(c) => [PhotoMatch(r.photoId, r.eventId, c, r.processedAt)]
      case None => []
    else []
  }

  /** The search list before sorting, in store order. */
  function Candidates(results: seq<PhotoResult>, userId: string, eventId: Option<string>): seq<PhotoMatch>
  {
    if results == [] then []
    else Candidates(results[..|results| - 1], userId, eventId) + Entry(results[|results| - 1], userId, eventId)
  }

  /** A match is listed exactly when it is the entry of some processed photo. */
  lemma {:induction false} CandidatesMembers(results: seq<PhotoResult>, userId: string, eventId: Option<string>, m: PhotoMatch)
    ensures m in Candidates(results, userId, eventId) <==>
            exists k :: 0 <= k < |results| && m in Entry(results[k], userId, eventId)
  {
    if results != [] {
      var init := results[..|results| - 1];
      CandidatesMembers(init, userId, eventId, m);
      assert forall k :: 0 <= k < |init| ==> init[k] == results[k];
      if m in Entry(results[|results| - 1], userId, eventId) {
        assert m in Candidates(results, userId, eventId);
      }
    }
  }

  /** At most one entry per processed photo. */
  lemma {:induction false} CandidatesLength(results: seq<PhotoResult>, userId: string, eventId: Option<string>)
    ensures |Candidates(results, userId, eventId)| <= |results|
  {
    if results != [] {
      CandidatesLength(results[..|results| - 1], userId, eventId);
    }
  }

  /** No two entries of `s` share a photo id. */
  predicate DistinctPhotos(s: seq<PhotoMatch>)
  {
    forall i, j :: 0 <= i < j < |s| ==> s[i].photoId != s[j].photoId
  }

  /** The store's keys are distinct (it is a dictionary keyed by photo id). */
  predicate DistinctResults(results: seq<PhotoResult>)
  {
    forall i, j :: 0 <= i < j < |results| ==> results[i].photoId != results[j].photoId
  }

  /** Over a store with distinct keys, the search lists each photo at most once. */
  lemma {:induction false} CandidatesDistinct(results: seq<PhotoResult>, userId: string, eventId: Option<string>)
    requires DistinctResults(results)
    ensures DistinctPhotos(Candidates(results, userId, eventId))
  {
    if results != [] {
      var init := results[..|results| - 1];
      var last := results[|results| - 1];
      assert DistinctResults(init) by {
        forall i, j | 0 <= i < j < |init| ensures init[i].photoId != init[j].photoId {
          assert init[i] == results[i] && init[j] == results[j];
        }
      }
      CandidatesDistinct(init, userId, eventId);
      var c := Candidates(init, userId, eventId);
      var e := Entry(last, userId, eventId);
      if |e| == 1 {
        forall i | 0 <= i < |c| ensures c[i].photoId != last.photoId {
          CandidatesMembers(init, userId, eventId, c[i]);
          var k :| 0 <= k < |init| && c[i] in Entry(init[k], userId, eventId);
          assert init[k] == results[k];
        }
        assert Candidates(results, userId, eventId) == c + e;
      }
    }
  }

  /** Every listed photo belongs to the requested event when one is given. */
  lemma CandidatesInEvent(results: seq<PhotoResult>, userId: string, eventId: Option<string>, m: PhotoMatch)
    requires m in Candidates(results, userId, eventId)
    requires eventId.Some? && eventId.value != ""
    ensures m.eventId == eventId.value
  {
    CandidatesMembers(results, userId, eventId, m);
  }

  /** Without an event id, every processed photo with a detection of the user is listed. */
  lemma CandidatesComplete(results: seq<PhotoResult>, userId: string, k: nat)
    requires k < |results|
    requires exists i :: 0 <= i < |results[k].detections| && results[k].detections[i].userId == userId
    ensures PhotoMatch(results[k].photoId, results[k].eventId, FirstConfidence(results[k].detections, userId).value,
                       results[k].processedAt) in Candidates(results, userId, None)
  {
    var m := PhotoMatch(results[k].photoId, results[k].eventId, FirstConfidence(results[k].detections, userId).value,
                        results[k].processedAt);
    assert m in Entry(results[k], userId, None);
    CandidatesMembers(results, userId, None, m);
  }

  /** Non-increasing confidence. */
  predicate SortedDesc(s: seq<PhotoMatch>)
  {
    forall i, j :: 0 <= i < j < |s| ==> s[i].confidence >= s[j].confidence
  }

  /** Places `m` before the first entry whose confidence is not greater than its own. */
  function Insert(m: PhotoMatch, s: seq<PhotoMatch>): (r: seq<PhotoMatch>)
    ensures multiset(r) == multiset(s) + multiset{m}
    ensures |r| == |s| + 1
  {
    if s == [] || s[0].confidence <= m.confidence then [m] + s
    else
      var rest := Insert(m, s[1..]);
      assert s == [s[0]] + s[1..];
      [s[0]] + rest
  }

  lemma {:induction false} InsertSorted(m: PhotoMatch, s: seq<PhotoMatch>)
    requires SortedDesc(s)
    ensures SortedDesc(Insert(m, s))
  {
    if !(s == [] || s[0].confidence <= m.confidence) {
      var rest := Insert(m, s[1..]);
      InsertSorted(m, s[1..]);
      forall j | 0 <= j < |rest| ensures s[0].confidence >= rest[j].confidence {
        assert rest[j] in multiset(rest);
        if rest[j] != m {
          assert rest[j] in multiset(s[1..]);
          var k :| 0 <= k < |s[1..]| && s[1..][k] == rest[j];
          assert s[k + 1] == rest[j];
        }
      }
    }
  }

  /** `list.sort(key=confidence, reverse=True)`: a stable sort by non-increasing confidence. */
  function SortDesc(s: seq<PhotoMatch>): (r: seq<PhotoMatch>)
    ensures multiset(r) == multiset(s)
    ensures |r| == |s|
  {
    if s == [] then []
    else
      assert s == [s[0]] + s[1..];
      Insert(s[0], SortDesc(s[1..]))
  }

  lemma {:induction false} SortDescSorted(s: seq<PhotoMatch>)
    ensures SortedDesc(SortDesc(s))
  {
    if s != [] {
      SortDescSorted(s[1..]);
      InsertSorted(s[0], SortDesc(s[1..]));
    }
  }

  /** Inserting an entry whose photo id is new keeps the ids distinct. */
  lemma {:induction false} InsertDistinct(m: PhotoMatch, s: seq<PhotoMatch>)
    requires DistinctPhotos(s)
    requires forall i :: 0 <= i < |s| ==> s[i].photoId != m.photoId
    ensures DistinctPhotos(Insert(m, s))
  {
    if !(s == [] || s[0].confidence <= m.confidence) {
      var rest := Insert(m, s[1..]);
      InsertDistinct(m, s[1..]);
      forall j | 0 <= j < |rest| ensures s[0].photoId != rest[j].photoId {
        assert rest[j] in multiset(rest);
        if rest[j] != m {
          assert rest[j] in multiset(s[1..]);
          var k :| 0 <= k < |s[1..]| && s[1..][k] == rest[j];
          assert s[k + 1] == rest[j];
        }
      }
    }
  }

  lemma {:induction false} SortDescDistinct(s: seq<PhotoMatch>)
    requires DistinctPhotos(s)
    ensures DistinctPhotos(SortDesc(s))
  {
    if s != [] {
      SortDescDistinct(s[1..]);
      var t := SortDesc(s[1..]);
      forall i | 0 <= i < |t| ensures t[i].photoId != s[0].photoId {
        assert t[i] in multiset(s[1..]);
        var k :| 0 <= k < |s[1..]| && s[1..][k] == t[i];
        assert s[k + 1] == t[i];
      }
      InsertDistinct(s[0], t);
    }
  }

  datatype SearchReply = SearchReply(success: bool, userId: string, photosFound: nat, photos: seq<PhotoMatch>)

  /** The reply the search gives for a registered user. */
  function SearchFor(results: seq<PhotoResult>, userId: string, eventId: Option<string>): (r: SearchReply)
    ensures r.success && r.userId == userId && r.photosFound == |r.photos| <= |results|
    ensures SortedDesc(r.photos)
    ensures multiset(r.photos) == multiset(Candidates(results, userId, eventId))
  {
    var c := Candidates(results, userId, eventId);
    CandidatesLength(results, userId, eventId);
    SortDescSorted(c);
    var photos := SortDesc(c);
    SearchReply(true, userId, |photos|, photos)
  }

  /** Over a store with distinct keys, no photo appears twice in the reply. */
  lemma SearchForDistinct(results: seq<PhotoResult>, userId: string, eventId: Option<string>)
    requires DistinctResults(results)
    ensures DistinctPhotos(SearchFor(results, userId, eventId).photos)
  {
    CandidatesDistinct(results, userId, eventId);
    SortDescDistinct(Candidates(results, userId, eventId));
  }

  // ---------------------------------------------------------------- comparison endpoints

  /** What reading an uploaded image gave: a decode failure, or the faces found in it. */
  datatype Scan = Unreadable | Faces(encodings: seq<Encoding>)

  datatype FaceMatch = FaceMatch(matched: bool, location: Box)

  datatype DetectReply = DetectReply(foundMatches: nat, matches: seq<FaceMatch>)

  /** One reported match per target face that compares equal to the reference, in target order. */
  function MatchesOf(ref: Encoding, targets: seq<TargetFace>, same: (Encoding, Encoding) -> bool): (r: seq<FaceMatch>)
    ensures |r| <= |targets|
    ensures |r| == |Seqs.Filter(targets, (t: TargetFace) => same(ref, t.encoding))|
    ensures forall i :: 0 <= i < |r| ==>
              r[i] == FaceMatch(true, Seqs.Filter(targets, (t: TargetFace) => same(ref, t.encoding))[i].location)
  {
    var hits := Seqs.Filter(targets, (t: TargetFace) => same(ref, t.encoding));
    seq(|hits|, i requires 0 <= i < |hits| => FaceMatch(true, hits[i].location))
  }

  /** A face box is reported exactly when some target face there matches the reference. */
  lemma MatchesOfExact(ref: Encoding, targets: seq<TargetFace>, same: (Encoding, Encoding) -> bool, t: TargetFace)
    ensures t in targets && same(ref, t.encoding) ==> FaceMatch(true, t.location) in MatchesOf(ref, targets, same)
    ensures FaceMatch(true, t.location) in MatchesOf(ref, targets, same) ==>
              exists u :: u in targets && same(ref, u.encoding) && u.location == t.location
  {
    var p := (u: TargetFace) => same(ref, u.encoding);
    var hits := Seqs.Filter(targets, p);
    var r := MatchesOf(ref, targets, same);
    Seqs.FilterMembers(targets, p, t);
    if t in hits {
      var i :| 0 <= i < |hits| && hits[i] == t;
      assert r[i] == FaceMatch(true, t.location);
    }
    if FaceMatch(true, t.location) in r {
      var i :| 0 <= i < |r| && r[i] == FaceMatch(true, t.location);
      Seqs.FilterMembers(targets, p, hits[i]);
    }
  }

  /**
   * `detect_face`: the first reference face against every target face. A missing reference
   * face, a target without faces or an unreadable image all leave as a 500.
   */
  method DetectFace(reference: Scan, targetImage: Option<seq<TargetFace>>, same: (Encoding, Encoding) -> bool)
    returns (r: Result<DetectReply, ApiError>)
    ensures reference.Unreadable? ==> r == Err(Wrap(ProcessingPrefix, Internal))
    ensures reference == Faces([]) ==> r == Err(Wrap(ProcessingPrefix, NoReferenceFace))
    ensures reference.Faces? && reference.encodings != [] && targetImage.None? ==>
              r == Err(Wrap(ProcessingPrefix, Internal))
    ensures reference.Faces? && reference.encodings != [] && targetImage == Some([]) ==>
              r == Err(Wrap(ProcessingPrefix, NoTargetFace))
    ensures r.Ok? <==> reference.Faces? && reference.encodings != [] && targetImage.Some? && targetImage.value != []
    ensures r.Ok? ==> r.value.matches == MatchesOf(reference.encodings[0], targetImage.value, same)
                      && r.value.foundMatches == |r.value.matches|
  {
    if reference.Unreadable? {
      return Err(Wrap(ProcessingPrefix, Internal));
    }
    if reference.encodings == [] {
      return Err(Wrap(ProcessingPrefix, NoReferenceFace));
    }
    var ref := reference.encodings[0];
    if targetImage.None? {
      return Err(Wrap(ProcessingPrefix, Internal));
    }
    var targets := targetImage.value;
    if targets == [] {
      return Err(Wrap(ProcessingPrefix, NoTargetFace));
    }
    ghost var p := (u: TargetFace) => same(ref, u.encoding);
    var results: seq<FaceMatch> := [];
    var i := 0;
    while i < |targets|
      invariant 0 <= i <= |targets|
      invariant results == MatchesOf(ref, targets[..i], same)
    {
      Seqs.FilterAppend(targets[..i], [targets[i]], p);
      assert targets[..i + 1] == targets[..i] + [targets[i]];
      assert Seqs.Filter([targets[i]], p) == if p(targets[i]) then [targets[i]] else [];
      if same(ref, targets[i].encoding) {
        results := results + [FaceMatch(true, targets[i].location)];
      }
      i := i + 1;
    }
    assert targets[..i] == targets;
    r := Ok(DetectReply(|results|, results));
  }

  /** `compare_faces`: the first reference face against the first target face only. */
  function CompareFaces(reference: Scan, target: Scan, same: (Encoding, Encoding) -> bool): (r: Result<bool, ApiError>)
    ensures r.Ok? <==> reference.Faces? && reference.encodings != [] && target.Faces? && target.encodings != []
    ensures r.Ok? ==> r.value == same(reference.encodings[0], target.encodings[0])
    ensures r.Err? ==> r.error.status == 500
  {
    if reference.Unreadable? then Err(Wrap(ProcessingPrefix, Internal))
    else if reference.encodings == [] then Err(Wrap(ProcessingPrefix, NoReferenceFace))
    else if target.Unreadable? then Err(Wrap(ProcessingPrefix, Internal))
    else if target.encodings == [] then Err(Wrap(ProcessingPrefix, NoTargetFace))
    else Ok(same(reference.encodings[0], target.encodings[0]))
  }

  /** Faces after the first one in the target image never change the answer. */
  lemma CompareIgnoresLaterFaces(reference: Scan, first: Encoding, rest1: seq<Encoding>, rest2: seq<Encoding>,
                                 same: (Encoding, Encoding) -> bool)
    ensures CompareFaces(reference, Faces([first] + rest1), same) == CompareFaces(reference, Faces([first] + rest2), same)
  {
  }

  // ---------------------------------------------------------------- the stores

  datatype RegisterReply = RegisterReply(success: bool, message: string, userId: string, faceDetected: bool)

  const RegisteredMessage := "Rosto registrado com sucesso"

  class FaceDb {
    /** `user_faces_db`: reference encoding per user id. */
    var userFaces: map<string, Encoding>
    /** `photo_results_db`, in insertion order. */
    var photoResults: seq<PhotoResult>

    predicate Valid()
      reads this
    {
      DistinctResults(photoResults)
    }

    /** Both stores start empty; no endpoint of the service adds processed photos. */
    constructor ()
      ensures Valid() && userFaces == map[] && photoResults == []
    {
      userFaces := map[];
      photoResults := [];
    }

    /** `get_stats`. */
    function GetStats(): (r: Stats)
      reads this
      ensures r.totalUsersRegistered == |userFaces| && r.totalPhotosProcessed == |photoResults|
      ensures r.totalDetections == SumDetections(photoResults)
      ensures r.totalDetections == 0 <==> forall i :: 0 <= i < |photoResults| ==> photoResults[i].detections == []
    {
      NoDetectionsIffAllEmpty(photoResults);
      Stats(|userFaces|, |photoResults|, SumDetections(photoResults))
    }

    /**
     * `register_face`: exactly one face stores (or overwrites) the user's encoding; zero or
     * several faces store nothing. The encoding is stored before the reference image is saved,
     * so a failed save answers 500 and keeps it.
     */
    method RegisterFace(userId: string, scan: Scan, saved: bool) returns (r: Result<RegisterReply, ApiError>)
      modifies this`userFaces
      ensures scan.Faces? && |scan.encodings| == 1 ==> userFaces == old(userFaces)[userId := scan.encodings[0]]
      ensures !(scan.Faces? && |scan.encodings| == 1) ==> userFaces == old(userFaces)
      ensures r.Ok? <==> scan.Faces? && |scan.encodings| == 1 && saved
      ensures r.Ok? ==> r.value == RegisterReply(true, RegisteredMessage, userId, true)
      ensures scan == Faces([]) ==> r == Err(Wrap(ProcessImagePrefix, NoFaceDetected))
      ensures scan.Faces? && |scan.encodings| > 1 ==> r == Err(Wrap(ProcessImagePrefix, MultipleFaces))
      ensures r.Err? ==> r.error.status == 500
    {
      if scan.Unreadable? {
        return Err(Wrap(ProcessImagePrefix, Internal));
      }
      if scan.encodings == [] {
        return Err(Wrap(ProcessImagePrefix, NoFaceDetected));
      }
      if |scan.encodings| > 1 {
        return Err(Wrap(ProcessImagePrefix, MultipleFaces));
      }
      userFaces := userFaces[userId := scan.encodings[0]];
      if !saved {
        return Err(Wrap(ProcessImagePrefix, Internal));
      }
      r := Ok(RegisterReply(true, RegisteredMessage, userId, true));
    }

    /**
     * `search_user_photos`: an unknown user answers 500; otherwise each processed photo of the
     * event (every photo when no event id is given) with a detection of the user yields one
     * entry carrying the first such detection's confidence, sorted by confidence descending.
     */
    method SearchUserPhotos(userId: string, eventId: Option<string>) returns (r: Result<SearchReply, ApiError>)
      requires Valid()
      ensures userId !in userFaces ==> r == Err(Wrap(SearchPrefix, UserNotFound))
      ensures userId in userFaces ==> r == Ok(SearchFor(photoResults, userId, eventId))
    {
      if userId !in userFaces {
        return Err(Wrap(SearchPrefix, UserNotFound));
      }
      var matching: seq<PhotoMatch> := [];
      var i := 0;
      while i < |photoResults|
        invariant 0 <= i <= |photoResults|
        invariant matching == Candidates(photoResults[..i], userId, eventId)
      {
        var res := photoResults[i];
        assert photoResults[..i + 1][..i] == photoResults[..i];
        if eventId.Some? && eventId.value != "" && res.eventId != eventId.value {
          i := i + 1;
          continue;
        }
        var ds := res.detections;
        var j := 0;
        while j < |ds|
          invariant 0 <= j <= |ds|
          invariant FirstConfidence(ds, userId) == FirstConfidence(ds[j..], userId)
        {
          if ds[j].userId == userId {
            matching := matching + [PhotoMatch(res.photoId, res.eventId, ds[j].confidence, res.processedAt)];
            break;
          }
          assert ds[j..][1..] == ds[j + 1..];
          j := j + 1;
        }
        i := i + 1;
      }
      assert photoResults[..i] == photoResults;
      var photos := SortDesc(matching);
      r := Ok(SearchReply(true, userId, |photos|, photos));
    }
  }
}
