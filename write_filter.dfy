/**
 * The changed-content filter installed on the output file system when
 * `writeMode` is 'changed' (packages/webpack-plugin/lib/index.js): a write
 * whose content equals the content last written to the same path is skipped.
 */
module WriteFilter {
  import opened Wrappers

  /** What webpack hands to `writeFile`: a string or a Buffer. */
  datatype Content = Text(text: string) | Bytes(bytes: seq<bv8>)

  /**
   * What the proxy does: calls back at once without writing, forwards the
   * write to the original `writeFile`, or throws (`Buffer.equals` given a
   * string throws a TypeError).
   */
  datatype WriteOutcome = Skipped | Written | Threw

  /**
   * The proxy's comparison of the last content written with the new one
   * (index.js:284): byte equality when a Buffer was last written, strict
   * equality otherwise.
   */
  function WriteDecision(last: Option<Content>, content: Content): (outcome: WriteOutcome)
    ensures outcome == Skipped <==> last == Some(content)
    ensures outcome == Threw <==> last.Some? && last.value.Bytes? && content.Text?
    ensures last.None? ==> outcome == Written
  {
    match last
    case None => Written
    case Some(Bytes(b)) =>
      if content.Text? then Threw
      else if content.bytes == b then Skipped
      else Written
    case Some(Text(s)) =>
      if content.Text? && content.text == s then Skipped else Written
  }

  class ChangedContentWriter {
    /** `writedFileContentMap`: file path -> content last forwarded for it. */
    var writtenContent: map<string, Content>

    constructor ()
      ensures writtenContent == map[]
    {
      writtenContent := map[];
    }

    /** The content last forwarded for `filePath`, if any. */
    function LastContent(filePath: string): Option<Content>
      reads this
    {
      if filePath in writtenContent then Some(writtenContent[filePath]) else None
    }

    /**
     * The proxied `writeFile`. A write is forwarded exactly when the content
     * differs from the last one forwarded for the path, and then that content
     * is remembered first; nothing else is recorded.
     */
    method WriteFile(filePath: string, content: Content) returns (outcome: WriteOutcome)
      modifies this
      ensures outcome == WriteDecision(old(LastContent(filePath)), content)
      ensures outcome == Written ==> writtenContent == old(writtenContent)[filePath := content]
      ensures outcome != Written ==> writtenContent == old(writtenContent)
    {
      var lastContent := LastContent(filePath);
      outcome := WriteDecision(lastContent, content);
      if outcome == Written {
        writtenContent := writtenContent[filePath := content];
      }
    }

    /** Two writes of the same content in a row: the second is never forwarded. */
    method WriteTwice(filePath: string, content: Content) returns (first: WriteOutcome, second: WriteOutcome)
      modifies this
      ensures first != Threw ==> second == Skipped
      ensures second != Written
      ensures writtenContent == if first == Written then old(writtenContent)[filePath := content] else old(writtenContent)
    {
      first := WriteFile(filePath, content);
      second := WriteFile(filePath, content);
    }
  }
}
