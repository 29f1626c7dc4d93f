/** The fatal conditions of the bootstrap; each one ends the run (src/main.cpp, the ASSERTs and exceptions). */
module Errors {
  import opened Editions

  datatype Error =
    | MissingDelimiter(token: string)              // a command-line token without '='
    | MissingKey(token: string)                    // a command-line token with nothing before its '='
    | MissingTrackFolder(edition: Tag, path: string)
    | MissingCarFolder(edition: Tag, path: string)
    | CannotIterate(path: string)                  // a directory iterator opened on a missing directory
    | MissingSharedFolder(name: string)            // no `lanes`, `misc` or `sfx` folder
    | NoVulkanSupport                              // the Vulkan renderer asked of a build without it
    | GraphicsUnavailable                          // InitOpenGL could not open a window or load GLEW
}
