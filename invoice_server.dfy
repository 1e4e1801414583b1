/**
 * The invoice server's state: the public `invoices` directory that the generate handler
 * writes PDFs into and that the daily sweep (`cleanupOldPdfs` in pdf-invoice-api/server.js)
 * prunes. The directory is a map from file name to the stored PDF and its modification time.
 */
module InvoiceServer {
  import opened Wrappers
  import opened Substitution
  import opened Invoice

  type Pdf = seq<bv8>

  /** A file in the invoices directory: its bytes and its modification time in milliseconds. */
  datatype StoredPdf = StoredPdf(content: Pdf, mtime: int)

  /** Seven days in milliseconds, the sweep's maximum age. */
  const MaxAgeMs: int := 7 * 24 * 60 * 60 * 1000

  /** A file is swept when it is strictly older than seven days; one exactly that old stays. */
  predicate Expired(now: int, mtime: int) {
    now - mtime > MaxAgeMs
  }

  /** The HTML the handler hands to the renderer. */
  function FilledHtml(template: string, inv: Invoice): string {
    ApplyAll(template, Substitutions(inv, ItemsHtml(inv.items)))
  }

  // ---------------------------------------------------------------------------------------
  // The sweep
  // ---------------------------------------------------------------------------------------

  /**
   * How a sweep ends: it visited every listed name, or it stopped at the name where
   * `statSync` (a missing file) or `unlinkSync` (a file the process may not delete) threw.
   */
  datatype SweepEnd = Finished(files: map<string, StoredPdf>) | Aborted(files: map<string, StoredPdf>, at: string)

  /**
   * The sweep over `listing`, front to back: a listed name that is no longer in the directory
   * makes `statSync` throw; an expired file is unlinked, unless its name is in `unlinkThrows`
   * (permissions, a busy file, a directory), where `unlinkSync` throws; any other file is
   * kept. Nothing catches a throw, so the sweep stops at it.
   */
  function Sweep(files: map<string, StoredPdf>, listing: seq<string>, now: int, unlinkThrows: set<string>): SweepEnd
    decreases |listing|
  {
    if listing == [] then Finished(files)
    else
      var name := listing[0];
      if name !in files then Aborted(files, name)
      else if Expired(now, files[name].mtime) then
        if name in unlinkThrows then Aborted(files, name)
        else Sweep(files - {name}, listing[1..], now, unlinkThrows)
      else Sweep(files, listing[1..], now, unlinkThrows)
  }

  /** The sweep only deletes: every file it leaves is an original file, unchanged. */
  lemma {:induction false} SweepOnlyDeletes(files: map<string, StoredPdf>, listing: seq<string>, now: int, unlinkThrows: set<string>)
    ensures forall k :: k in Sweep(files, listing, now, unlinkThrows).files ==> k in files && Sweep(files, listing, now, unlinkThrows).files[k] == files[k]
    decreases |listing|
  {
    if listing != [] && listing[0] in files {
      var name := listing[0];
      var next := if Expired(now, files[name].mtime) then files - {name} else files;
      SweepOnlyDeletes(next, listing[1..], now, unlinkThrows);
    }
  }

  /** Only listed, expired files are deleted: whatever is fresh or unlisted survives the sweep. */
  lemma {:induction false} SweepKeepsFresh(files: map<string, StoredPdf>, listing: seq<string>, now: int, unlinkThrows: set<string>, k: string)
    requires k in files && (!Expired(now, files[k].mtime) || k !in listing)
    ensures k in Sweep(files, listing, now, unlinkThrows).files
    decreases |listing|
  {
    if listing != [] && listing[0] in files {
      var name := listing[0];
      var next := if Expired(now, files[name].mtime) then files - {name} else files;
      assert k in next;
      SweepKeepsFresh(next, listing[1..], now, unlinkThrows, k);
    }
  }

  /** The directory with its expired files removed. */
  function Unexpired(files: map<string, StoredPdf>, now: int): (r: map<string, StoredPdf>)
    ensures forall k :: k in r <==> k in files && !Expired(now, files[k].mtime)
  {
    map k | k in files && !Expired(now, files[k].mtime) :: files[k]
  }

  predicate Distinct(listing: seq<string>) {
    forall i, j :: 0 <= i < j < |listing| ==> listing[i] != listing[j]
  }

  /** `listing` is what `readdirSync` returns for `files`: every name, once. */
  ghost predicate ListsExactly(listing: seq<string>, files: map<string, StoredPdf>) {
    Distinct(listing) && forall k :: k in files <==> k in listing
  }

  /** The listed files that are expired. */
  function ExpiredAmong(files: map<string, StoredPdf>, listing: seq<string>, now: int): set<string> {
    set k | k in listing && k in files && Expired(now, files[k].mtime)
  }

  /**
   * While every listed name is still present and every expired one can be unlinked, the sweep
   * visits them all and deletes exactly the listed files that are expired.
   */
  lemma {:induction false} SweepPresent(files: map<string, StoredPdf>, listing: seq<string>, now: int, unlinkThrows: set<string>)
    requires Distinct(listing)
    requires forall k :: k in listing ==> k in files && (Expired(now, files[k].mtime) ==> k !in unlinkThrows)
    ensures Sweep(files, listing, now, unlinkThrows) == Finished(files - ExpiredAmong(files, listing, now))
    decreases |listing|
  {
    if listing == [] {
      assert ExpiredAmong(files, listing, now) == {};
      assert files - {} == files;
    } else {
      var name := listing[0];
      var rest := listing[1..];
      var next := if Expired(now, files[name].mtime) then files - {name} else files;
      assert Distinct(rest) by {
        forall i, j | 0 <= i < j < |rest| ensures rest[i] != rest[j] {
          assert rest[i] == listing[i + 1] && rest[j] == listing[j + 1];
        }
      }
      forall k | k in rest ensures k in next && k != name {
        var j :| 0 <= j < |rest| && rest[j] == k;
        assert listing[j + 1] == k;
      }
      SweepPresent(next, rest, now, unlinkThrows);
      var left, right := next - ExpiredAmong(next, rest, now), files - ExpiredAmong(files, listing, now);
      forall k ensures k in left <==> k in right {
        if k in listing && k != name {
          assert k in rest;
        }
      }
      assert left == right;
    }
  }

  /** A sweep from a fresh listing, with no failing unlink, leaves exactly the unexpired files. */
  lemma SweepOfListing(files: map<string, StoredPdf>, listing: seq<string>, now: int, unlinkThrows: set<string>)
    requires ListsExactly(listing, files)
    requires forall k :: k in files && Expired(now, files[k].mtime) ==> k !in unlinkThrows
    ensures Sweep(files, listing, now, unlinkThrows) == Finished(Unexpired(files, now))
  {
    SweepPresent(files, listing, now, unlinkThrows);
    assert files - ExpiredAmong(files, listing, now) == Unexpired(files, now);
  }

  /** Sweeping twice at the same instant deletes nothing more. */
  lemma SweepIdempotent(files: map<string, StoredPdf>, again: seq<string>, now: int, unlinkThrows: set<string>)
    requires ListsExactly(again, Unexpired(files, now))
    ensures Sweep(Unexpired(files, now), again, now, unlinkThrows) == Finished(Unexpired(files, now))
  {
    var left := Unexpired(files, now);
    SweepOfListing(left, again, now, unlinkThrows);
    assert Unexpired(left, now) == left;
  }

  // ---------------------------------------------------------------------------------------
  // The directory
  // ---------------------------------------------------------------------------------------

  class InvoiceDirectory {
    var files: map<string, StoredPdf>

    constructor ()
      ensures files == map[]
    {
      files := map[];
    }

    /**
     * `POST /api/invoice/generate`: destructure the body with defaults, read the template,
     * fill it, render it, write the PDF under the sanitised invoice number (overwriting any
     * file of that name) and answer with its links. Reading the template, rendering and
     * writing are the steps that can throw; any throw answers 500 and writes nothing.
     */
    method Generate(req: InvoiceRequest, today: string, template: Result<string, string>,
                    render: string -> Result<Pdf, string>, writeError: Option<string>,
                    now: int, host: string, reply: ShortenerReply)
      returns (resp: Response)
      modifies this
      ensures var inv := WithDefaults(req, today);
        template.Failure? ==> resp == GenerationFailed(FailureText, template.error) && files == old(files)
      ensures var inv := WithDefaults(req, today);
        template.Success? && render(FilledHtml(template.value, inv)).Failure? ==>
          resp == GenerationFailed(FailureText, render(FilledHtml(template.value, inv)).error) && files == old(files)
      ensures var inv := WithDefaults(req, today);
        template.Success? && render(FilledHtml(template.value, inv)).Success? && writeError.Some? ==>
          resp == GenerationFailed(FailureText, writeError.value) && files == old(files)
      ensures var inv := WithDefaults(req, today);
        template.Success? && render(FilledHtml(template.value, inv)).Success? && writeError.None? ==>
          && resp == SuccessResponse(inv.invoiceNumber, host, reply)
          && files == old(files)[Filename(inv.invoiceNumber) := StoredPdf(render(FilledHtml(template.value, inv)).value, now)]
    {
      var inv := WithDefaults(req, today);
      if template.Failure? {
        return GenerationFailed(FailureText, template.error);
      }
      var html := PopulateTemplate(template.value, inv);
      var pdf := render(html);
      if pdf.Failure? {
        return GenerationFailed(FailureText, pdf.error);
      }
      var filename := Filename(inv.invoiceNumber);
      if writeError.Some? {
        return GenerationFailed(FailureText, writeError.value);
      }
      files := files[filename := StoredPdf(pdf.value, now)];
      resp := SuccessResponse(inv.invoiceNumber, host, reply);
    }

    /**
     * `cleanupOldPdfs`: walk the listing taken at the start of the sweep and unlink each file
     * older than seven days. Returns the name whose `statSync` or `unlinkSync` threw, if any.
     */
    method CleanupOldPdfs(now: int, listing: seq<string>, unlinkThrows: set<string>) returns (threwAt: Option<string>)
      modifies this
      ensures Sweep(old(files), listing, now, unlinkThrows) ==
        (if threwAt.Some? then Aborted(files, threwAt.value) else Finished(files))
    {
      var i := 0;
      while i < |listing|
        invariant 0 <= i <= |listing|
        invariant Sweep(old(files), listing, now, unlinkThrows) == Sweep(files, listing[i..], now, unlinkThrows)
      {
        var name := listing[i];
        assert listing[i..][1..] == listing[i + 1..];
        if name !in files {
          return Some(name);
        }
        if Expired(now, files[name].mtime) {
          if name in unlinkThrows {
            return Some(name);
          }
          files := files - {name};
        }
        i := i + 1;
      }
      return None;
    }
  }
}
