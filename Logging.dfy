/** The bot's SLF4J logger, reduced to the ordered list of lines it was given. */
module Logging {

  datatype LogLine = InfoLine(text: string) | ErrorLine(text: string)

  class Logger {
    const name: string
    var lines: seq<LogLine>

    constructor (name: string)
      ensures this.name == name && lines == []
    {
      this.name := name;
      lines := [];
    }

    method Info(text: string)
      modifies this
      ensures lines == old(lines) + [InfoLine(text)]
    {
      lines := lines + [InfoLine(text)];
    }

    method Error(text: string)
      modifies this
      ensures lines == old(lines) + [ErrorLine(text)]
    {
      lines := lines + [ErrorLine(text)];
    }
  }
}
