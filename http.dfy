/**
 * The HTTP exchange the clients perform, reduced to what they observe: a request
 * goes out and a status, headers and a decoded body come back. The transport is
 * an object that records every request it is given; what the server answers is a
 * function of the requests sent so far and the new one.
 */
module Http {
  import opened Php

  datatype Method = GET | HEAD | POST | PUT | DELETE

  /**
   * A request as the client is given it: the URL parameters, the body data and
   * the header array (how the client renders an array-valued header is not
   * modelled).
   */
  datatype Request = HttpRequest(
    verb: Method,
    url: string,
    query: Entries,
    body: Entries,
    headers: Entries)

  datatype Response = Response(
    status: int,
    headers: seq<(string, string)>,
    data: Value,
    content: string)

  /** What a connection method answers: the decoded data, or for HEAD the response's header collection. */
  datatype Reply = Data(value: Value) | HeaderCollection(headers: seq<(string, string)>)

  /**
   * The request yii\httpclient's Client builds for `$client->$method($url, $data)`:
   * GET data goes into the URL, HEAD data into the headers (its `head()` takes
   * headers as the second argument), other data into the body.
   */
  function ClientRequest(m: Method, url: string, data: Entries): Request
  {
    HttpRequest(m, url, if m == GET then data else [], if m == GET || m == HEAD then [] else data, if m == HEAD then data else [])
  }

  /** yii\httpclient's `isOk`: the status code's text starts with "20". */
  predicate IsOk(r: Response)
  {
    200 <= r.status <= 209
  }

  function LowerChar(c: char): char
  {
    if 'A' <= c <= 'Z' then (c as int + 32) as char else c
  }

  function ToLower(s: string): (r: string)
    ensures |r| == |s| && forall i :: 0 <= i < |s| ==> r[i] == LowerChar(s[i])
  {
    if s == [] then [] else [LowerChar(s[0])] + ToLower(s[1..])
  }

  /** `HeaderCollection::get($name)`: the first value of the header, whose name is matched case-insensitively. */
  function Header(headers: seq<(string, string)>, name: string): Option<string>
  {
    if headers == [] then None
    else if ToLower(headers[0].0) == ToLower(name) then Some(headers[0].1)
    else Header(headers[1..], name)
  }

  /** A header is found exactly when some header's name matches, and then it is the value of the first match. */
  lemma {:induction false} HeaderFirst(headers: seq<(string, string)>, name: string)
    ensures Header(headers, name).Some? <==> exists i :: 0 <= i < |headers| && ToLower(headers[i].0) == ToLower(name)
    ensures Header(headers, name).Some? ==>
      exists i :: 0 <= i < |headers| && ToLower(headers[i].0) == ToLower(name)
        && headers[i].1 == Header(headers, name).value
        && forall j :: 0 <= j < i ==> ToLower(headers[j].0) != ToLower(name)
  {
    if headers != [] && ToLower(headers[0].0) != ToLower(name) {
      HeaderFirst(headers[1..], name);
      if Header(headers, name).Some? {
        var i :| 0 <= i < |headers[1..]| && ToLower(headers[1..][i].0) == ToLower(name)
          && headers[1..][i].1 == Header(headers, name).value
          && forall j :: 0 <= j < i ==> ToLower(headers[1..][j].0) != ToLower(name);
        assert ToLower(headers[i + 1].0) == ToLower(name);
        forall j | 0 <= j < i + 1
          ensures ToLower(headers[j].0) != ToLower(name)
        {
          if j > 0 {
            assert headers[j] == headers[1..][j - 1];
          }
        }
      }
      forall i | 0 <= i < |headers| && ToLower(headers[i].0) == ToLower(name)
        ensures Header(headers[1..], name).Some?
      {
        assert i > 0 && headers[1..][i - 1] == headers[i];
      }
    }
  }

  class Transport {
    /** What the server answers, given the requests it has already received. */
    const respond: (seq<Request>, Request) -> Response
    /** Every request sent, oldest first. */
    var log: seq<Request>

    constructor(respond: (seq<Request>, Request) -> Response)
      ensures this.respond == respond && log == []
    {
      this.respond := respond;
      log := [];
    }

    method Send(r: Request) returns (resp: Response)
      modifies this
      ensures log == old(log) + [r]
      ensures resp == respond(old(log), r)
    {
      resp := respond(log, r);
      log := log + [r];
    }
  }
}
