/**
 * Reshaping of Strava API responses (vmpy/strava.py): the list of stream
 * records becomes a map from stream type to data, and an access token
 * becomes the bearer header sent with every request.
 */
module StravaApi {
  import opened Basics

  /** One element of a streams response: its `type` field and its `data` field. */
  datatype StreamRecord<T> = StreamRecord(kind: string, data: T)

  /** A stream sample as a response carries it: a number or a piece of text. */
  datatype Datum = Number(x: real) | Text(s: string)

  /** The stream types present in a response. */
  ghost function Kinds<T>(records: seq<StreamRecord<T>>): set<string>
  {
    set i | 0 <= i < |records| :: records[i].kind
  }

  /** The dictionary after `update`s with the records in order. */
  function StreamMap<T>(records: seq<StreamRecord<T>>): map<string, T>
  {
    if records == [] then map[]
    else
      var last := records[|records| - 1];
      StreamMap(records[..|records| - 1])[last.kind := last.data]
  }

  /** `stream2dict`: folds the records into a dictionary, one `update` per record. */
  method Stream2Dict<T>(records: seq<StreamRecord<T>>) returns (d: map<string, T>)
    ensures d == StreamMap(records)
    ensures d.Keys == Kinds(records)
  {
    d := map[];
    var i := 0;
    while i < |records|
      invariant 0 <= i <= |records|
      invariant d == StreamMap(records[..i])
      invariant d.Keys == Kinds(records[..i])
    {
      assert records[..i + 1][..i] == records[..i];
      ghost var before := Kinds(records[..i]);
      d := d[records[i].kind := records[i].data];
      assert Kinds(records[..i + 1]) == before + {records[i].kind} by {
        forall k | k in Kinds(records[..i + 1]) ensures k in before + {records[i].kind} {
          var j :| 0 <= j < i + 1 && records[..i + 1][j].kind == k;
          if j < i {
            assert records[..i][j].kind == k;
          }
        }
        forall k | k in before ensures k in Kinds(records[..i + 1]) {
          var j :| 0 <= j < i && records[..i][j].kind == k;
          assert records[..i + 1][j].kind == k;
        }
      }
      i := i + 1;
    }
    assert records[..i] == records;
  }

  /** The keys of the dictionary are exactly the stream types of the records. */
  lemma {:induction false} StreamMapKeys<T>(records: seq<StreamRecord<T>>)
    ensures StreamMap(records).Keys == Kinds(records)
  {
    if records != [] {
      var front := records[..|records| - 1];
      StreamMapKeys(front);
      forall k | k in Kinds(records) ensures k in Kinds(front) + {records[|records| - 1].kind} {
        var j :| 0 <= j < |records| && records[j].kind == k;
        if j < |records| - 1 {
          assert front[j].kind == k;
        }
      }
      forall k | k in Kinds(front) ensures k in Kinds(records) {
        var j :| 0 <= j < |front| && front[j].kind == k;
        assert records[j].kind == k;
      }
    }
  }

  /** For a repeated type, the data of the last record of that type wins. */
  lemma {:induction false} StreamMapLastWins<T>(records: seq<StreamRecord<T>>, i: nat)
    requires i < |records|
    requires forall j :: i < j < |records| ==> records[j].kind != records[i].kind
    ensures records[i].kind in StreamMap(records)
    ensures StreamMap(records)[records[i].kind] == records[i].data
  {
    if i < |records| - 1 {
      var front := records[..|records| - 1];
      assert front[i] == records[i];
      StreamMapLastWins(front, i);
    }
  }

  /** A record whose type never appears again keeps its data, so distinct types map to their data unchanged. */
  lemma StreamMapDistinct<T>(records: seq<StreamRecord<T>>)
    requires forall i, j :: 0 <= i < j < |records| ==> records[i].kind != records[j].kind
    ensures StreamMap(records).Keys == Kinds(records)
    ensures forall i :: 0 <= i < |records| ==> StreamMap(records)[records[i].kind] == records[i].data
  {
    StreamMapKeys(records);
    forall i | 0 <= i < |records| ensures StreamMap(records)[records[i].kind] == records[i].data {
      StreamMapLastWins(records, i);
    }
  }

  /** The numbers/letters response of the library's own example. */
  lemma StreamMapExample()
    ensures StreamMap([StreamRecord("numbers", [Number(1.0), Number(2.0), Number(3.0)]),
                       StreamRecord("letters", [Text("a"), Text("b"), Text("c")])])
         == map["numbers" := [Number(1.0), Number(2.0), Number(3.0)],
                "letters" := [Text("a"), Text("b"), Text("c")]]
  {
    var records := [StreamRecord("numbers", [Number(1.0), Number(2.0), Number(3.0)]),
                    StreamRecord("letters", [Text("a"), Text("b"), Text("c")])];
    assert records[..1] == [records[0]];
    assert [records[0]][..0] == [];
  }

  const Scheme: string := "Bearer "

  /** `authorization_header`: a one-entry dictionary carrying the bearer token. */
  function AuthorizationHeader(token: string): (h: map<string, string>)
    ensures h.Keys == {"Authorization"}
    ensures |h["Authorization"]| == |Scheme| + |token|
  {
    map["Authorization" := Scheme + token]
  }

  /** Reads the token back out of a header, if the header is a bearer header. */
  function BearerToken(h: map<string, string>): Option<string>
  {
    if "Authorization" in h && |Scheme| <= |h["Authorization"]| && h["Authorization"][..|Scheme|] == Scheme
    then Some(h["Authorization"][|Scheme|..])
    else None
  }

  /** The header carries the token unaltered: reading it back gives the token. */
  lemma AuthorizationHeaderRoundTrip(token: string)
    ensures BearerToken(AuthorizationHeader(token)) == Some(token)
  {
    var v := Scheme + token;
    assert v[..|Scheme|] == Scheme;
    assert v[|Scheme|..] == token;
  }

  /** Different tokens give different headers. */
  lemma AuthorizationHeaderInjective(a: string, b: string)
    requires AuthorizationHeader(a) == AuthorizationHeader(b)
    ensures a == b
  {
    AuthorizationHeaderRoundTrip(a);
    AuthorizationHeaderRoundTrip(b);
  }

  lemma AuthorizationHeaderExample()
    ensures AuthorizationHeader("abc123") == map["Authorization" := "Bearer abc123"]
  {
    assert Scheme + "abc123" == "Bearer abc123";
  }
}
