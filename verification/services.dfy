/** Services of the operating system, the network and third-party libraries that the model takes as given. */
module Services {
  import opened Wrappers
  import opened Json

  datatype Host = Host(
    /** `path.resolve` applied to its arguments in order. */
    resolve: seq<string> -> string,
    /** `JSON.parse`: `None` when it throws. */
    parseJson: string -> Option<Json>,
    /** `os.homedir()`. */
    homedir: string,
    /** Whether `process.chdir` to the directory succeeds. */
    chdir: string -> bool,
    /** The file id the upload endpoint returns for a path, `""` when the upload yields none. */
    uploadId: string -> string
  )
}
