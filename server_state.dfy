/** The Go receiver's server object and the in-memory file output: the
    `FileOut` append buffer and the two constructors. */
module ServerState {
  import opened Common
  import ServerTypes
  import Server

  /** `FileOut`: a file's descriptor and the bytes written for it so far. */
  class FileOut {
    var file: ServerTypes.File
    var buffer: seq<byte>

    constructor (file: ServerTypes.File, buffer: seq<byte>)
      ensures this.file == file && this.buffer == buffer
    {
      this.file := file;
      this.buffer := buffer;
    }

    /** `Write`: append everything, report all of it written, never fail. */
    method Write(b: seq<byte>) returns (n: nat, err: Option<string>)
      modifies this`buffer
      ensures buffer == old(buffer) + b
      ensures n == |b| && err == None
      ensures file == old(file)
    {
      buffer := buffer + b;
      n := |b|;
      err := None;
    }
  }

  /** `ServerConfig`: whether hooks are installed, whether an output channel
      is given, and verbosity. The hooks and the channel are host values;
      only their presence matters to the engine. */
  datatype ServerConfig = ServerConfig(hasHandlers: bool, hasOut: bool, verbose: bool)

  /** `WSFTPServer`: the live transfers by id, and the configuration. */
  datatype WSFTPServer = WSFTPServer(transfers: map<nat, Server.Engine>, config: ServerConfig)

  function NewDefaultServer(): (r: WSFTPServer)
    ensures r.transfers == map[]
    ensures !r.config.hasHandlers && !r.config.hasOut && !r.config.verbose
  {
    WSFTPServer(map[], ServerConfig(false, false, false))
  }

  function NewServer(config: ServerConfig): (r: WSFTPServer)
    ensures r.transfers == map[] && r.config == config
  {
    WSFTPServer(map[], config)
  }

  /** The default server is the one built from the zero configuration. */
  lemma DefaultIsZeroConfig()
    ensures NewDefaultServer() == NewServer(ServerConfig(false, false, false))
  {
  }
}
