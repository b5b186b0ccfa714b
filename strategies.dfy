/** The candidate URL list of the player: for one Drive file, the ordered
    ways of fetching the same audio, most reliable first. */
module Strategies {
  import opened Values

  const ApiBase: string := "https://www.googleapis.com/drive/v3/files/"
  const ApiQuery: string := "?alt=media&key="
  const DriveBase: string := "https://drive.google.com/uc?export=download&id="
  const DocsBase: string := "https://docs.google.com/uc?export=download&id="
  const ConfirmQuery: string := "&confirm=t"

  /** A key must be longer than this to be tried at all. */
  const MinKeyLength: nat := 5

  /** The three ways of reaching a file: the authenticated Drive v3 media
      endpoint, the public download endpoint, and the same export on the
      alternate docs host. */
  datatype Strategy = DriveApi | DriveDownload | DocsExport

  /** `apiKey && apiKey.length > 5`: an absent or empty key is falsy. */
  predicate HasUsableKey(apiKey: Option<string>) {
    apiKey.Some? && |apiKey.value| > MinKeyLength
  }

  function Base(st: Strategy): string {
    match st
    case DriveApi => ApiBase
    case DriveDownload => DriveBase
    case DocsExport => DocsBase
  }

  /** The URL one strategy produces; `key` is only spliced into the
      authenticated one. */
  function Url(st: Strategy, fileId: string, key: string): string {
    match st
    case DriveApi => ApiBase + fileId + ApiQuery + key
    case DriveDownload => DriveBase + fileId + ConfirmQuery
    case DocsExport => DocsBase + fileId + ConfirmQuery
  }

  /** Which strategy a URL belongs to, read off its host and path; the
      reference against which the list below is checked. */
  function Classify(url: string): Option<Strategy> {
    if ApiBase <= url then Some(DriveApi)
    else if DriveBase <= url then Some(DriveDownload)
    else if DocsBase <= url then Some(DocsExport)
    else None
  }

  /** `urlStrategies`: the candidate list for `fileId` under `apiKey`. */
  function UrlStrategies(fileId: string, apiKey: Option<string>): (r: seq<string>)
    ensures |r| == if HasUsableKey(apiKey) then 3 else 2
  {
    var key := if apiKey.Some? then apiKey.value else "";
    (if HasUsableKey(apiKey) then [Url(DriveApi, fileId, key)] else [])
      + [Url(DriveDownload, fileId, key), Url(DocsExport, fileId, key)]
  }

  /** Every URL a strategy builds is recognised as that strategy. */
  lemma ClassifyUrl(st: Strategy, fileId: string, key: string)
    ensures Classify(Url(st, fileId, key)) == Some(st)
  {
    var u := Url(st, fileId, key);
    assert Base(st) <= u by {
      assert u[..|Base(st)|] == Base(st);
    }
    // The three bases part at a fixed position: "https://www." against
    // "https://drive." against "https://docs.".
    assert ApiBase[8] == 'w' && DriveBase[8] == 'd' && DocsBase[8] == 'd';
    assert DriveBase[9] == 'r' && DocsBase[9] == 'o';
    if st != DriveApi {
      assert u[8] == 'd';
      assert !(ApiBase <= u);
    }
    if st == DocsExport {
      assert u[9] == 'o';
      assert !(DriveBase <= u);
    }
  }

  /** The file identifier sits verbatim in every candidate, right after
      the strategy's base. */
  lemma UrlCarriesFileId(st: Strategy, fileId: string, key: string)
    ensures Base(st) + fileId <= Url(st, fileId, key)
  {
    var u := Url(st, fileId, key);
    assert u[..|Base(st) + fileId|] == Base(st) + fileId;
  }

  /** The shape of the list: never empty; the authenticated URL appears,
      and then first, exactly when the key is usable; the public download
      comes next and the docs export is always last. */
  lemma UrlStrategiesOrder(fileId: string, apiKey: Option<string>)
    ensures var r := UrlStrategies(fileId, apiKey);
      && |r| > 0
      && (forall i :: 0 <= i < |r| ==> Classify(r[i]).Some?)
      && (forall i :: 0 <= i < |r| ==>
            (Classify(r[i]) == Some(DriveApi) <==> i == 0 && HasUsableKey(apiKey)))
      && Classify(r[|r| - 2]) == Some(DriveDownload)
      && Classify(r[|r| - 1]) == Some(DocsExport)
  {
    var key := if apiKey.Some? then apiKey.value else "";
    ClassifyUrl(DriveApi, fileId, key);
    ClassifyUrl(DriveDownload, fileId, key);
    ClassifyUrl(DocsExport, fileId, key);
  }

  /** No two candidates are the same URL, so each fallback really tries
      something new. */
  lemma UrlStrategiesDistinct(fileId: string, apiKey: Option<string>)
    ensures var r := UrlStrategies(fileId, apiKey);
      forall i, j :: 0 <= i < j < |r| ==> r[i] != r[j]
  {
    var r := UrlStrategies(fileId, apiKey);
    UrlStrategiesOrder(fileId, apiKey);
    forall i, j | 0 <= i < j < |r| ensures r[i] != r[j] {
      if |r| == 3 {
        assert Classify(r[0]) == Some(DriveApi);
        assert Classify(r[1]) == Some(DriveDownload);
      }
    }
  }

  /** Every candidate names the requested file. */
  lemma UrlStrategiesCarryFileId(fileId: string, apiKey: Option<string>)
    ensures var r := UrlStrategies(fileId, apiKey);
      forall i :: 0 <= i < |r| ==>
        Classify(r[i]).Some? && Base(Classify(r[i]).value) + fileId <= r[i]
  {
    var key := if apiKey.Some? then apiKey.value else "";
    var r := UrlStrategies(fileId, apiKey);
    forall i | 0 <= i < |r|
      ensures Classify(r[i]).Some? && Base(Classify(r[i]).value) + fileId <= r[i]
    {
      var st := if |r| == 3 && i == 0 then DriveApi
                else if i == |r| - 2 then DriveDownload
                else DocsExport;
      assert r[i] == Url(st, fileId, key);
      ClassifyUrl(st, fileId, key);
      UrlCarriesFileId(st, fileId, key);
    }
  }
}
