/** Process-wide configuration of the sidecar. The server reads the model
    identifier from the environment once at start-up; the model treats it as
    the default value it falls back to. */
module Config {

  /** The one model identifier the sidecar serves (MODEL). */
  const MODEL: string := "mlx-community/Qwen2.5-14B-Instruct-4bit"

  /** The backend name reported by the health endpoint. */
  const BACKEND: string := "mlx"
}
