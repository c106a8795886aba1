/** The `StringIO` buffer every renderer writes into. */
module Output {

  class Buffer {
    var content: string

    constructor ()
      ensures content == ""
    {
      content := "";
    }

    /** `out.write(s)`. */
    method Write(s: string)
      modifies this
      ensures content == old(content) + s
    {
      content := content + s;
    }
  }
}
