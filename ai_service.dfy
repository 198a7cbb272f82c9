/**
 * The data exchanged with the abstract generator (src/services/ai.ts). The
 * generator itself is a call to a remote language model; the model receives
 * its outcome as a value.
 */
module AiService {
  import opened Wrappers

  /** `AbstractInput`. */
  datatype AbstractInput = AbstractInput(
    title: string,
    premise: string,
    area: string,
    objectives: string,
    introduction: string,
    methodology: string,
    results: string)

  /** `AbstractOutput`: each language's abstract is present or absent. */
  datatype AbstractOutput = AbstractOutput(resumoPT: Option<string>, resumoEN: Option<string>)

  /** The language choice `'Português' | 'Inglês' | 'Ambos'`. */
  datatype Language = Portuguese | English | Both

  /** One call to the generator together with the language it was asked for. */
  datatype GenerationRequest = GenerationRequest(input: AbstractInput, language: Language)

  /**
   * How the awaited call ended: a result, or a thrown value, carrying its
   * `message` when it is an `Error` and nothing otherwise.
   */
  datatype GenerationOutcome = Generated(output: AbstractOutput) | Failed(message: Option<string>)
}
